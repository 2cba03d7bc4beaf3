/** Any number of tasks using any number of channels on the park/wake protocol.

    A task runs arbitrary user code; every lock-protected section it executes is one
    action, and actions of different tasks interleave freely.  The continuation of each
    task (`Pc`) says where inside `send`, `recv`, `close` or `sleep` it stands. */
module ChannelSystem {
  import opened Common
  import PW = ParkWake
  import opened Channel

  type ChanId = nat

  /** What a task waits for.  A send carries its position in the channel's `sent`. */
  datatype Wait = OnRecv(c: ChanId) | OnSend(c: ChanId, n: nat) | OnTimer

  /** What a task still has to return once it has made its wakeups. */
  datatype After<T> = SendDone(c: ChanId, n: nat) | RecvDone(c: ChanId, v: T) | CloseDone

  datatype Pc<T> =
    | User                                       // between operations
    | Waking(list: seq<TaskId>, after: After<T>) // lock released, `goready`s to make
    | Blocked(k: Wait)                           // registered, on the way into gopark
    | Resume(k: Wait)                            // gopark settled; runs when woken
    | Finished

  /** Auxiliary: where the outstanding registration of a task is kept. */
  datatype Where = AtRecvq(c: ChanId) | AtSendq(c: ChanId) | AtTimer | Flight(waker: TaskId)

  datatype Sys<T> = Sys(
    park: PW.State,
    pc: map<TaskId, Pc<T>>,
    chans: map<ChanId, ChanState<T>>,
    regAt: map<TaskId, Where>,
    aborted: bool          // a task panicked inside `extern "C" task_entry`
  )

  datatype Action<T> =
    | Spawn(t: TaskId)
    | NewChan(t: TaskId, c: ChanId, cap: nat)
    | Send(t: TaskId, c: ChanId, v: T)
    | Recv(t: TaskId, c: ChanId)
    | Close(t: TaskId, c: ChanId)
    | WakeNext(t: TaskId)
    | Sleep(t: TaskId)
    | Commit(t: TaskId)        // the scheduler settles a park
    | Continue(t: TaskId)      // a woken task re-locks its channel
    | TimerWake(t: TaskId)     // an expired timer readies its task
    | Finish(t: TaskId)

  /** What an action returns to user code. */
  datatype Event<T> =
    | Nothing
    | SendReturns(c: ChanId, n: nat)
    | RecvReturns(c: ChanId, t: TaskId, r: Option<T>)
    | Panics

  predicate InUser<T>(s: Sys<T>, t: TaskId) {
    t in s.pc && s.pc[t] == User && PW.Active(s.park, t)
  }

  predicate Enabled<T(==)>(s: Sys<T>, a: Action<T>) {
    !s.aborted &&
    match a
    case Spawn(t) => InUser(s, t)
    case NewChan(t, c, cap) => InUser(s, t) && c !in s.chans
    case Send(t, c, v) => InUser(s, t) && c in s.chans
    case Recv(t, c) => InUser(s, t) && c in s.chans
    case Close(t, c) => InUser(s, t) && c in s.chans
    case WakeNext(t) => t in s.pc && s.pc[t].Waking? && s.pc[t].list != [] && PW.Active(s.park, t)
    case Sleep(t) => InUser(s, t)
    case Commit(t) => t in s.pc && s.pc[t].Blocked? && t in s.park.parking
    case Continue(t) =>
      t in s.pc && s.pc[t].Resume? && PW.Active(s.park, t)
      && (!s.pc[t].k.OnTimer? ==> s.pc[t].k.c in s.chans)
    case TimerWake(t) => t in s.regAt && s.regAt[t] == AtTimer
    case Finish(t) => InUser(s, t)
  }

  /** The protocol label of an action. */
  function LabelOf<T(==)>(s: Sys<T>, a: Action<T>): PW.Label
    requires Enabled(s, a)
  {
    match a
    case Spawn(_) => PW.Spawn
    case NewChan(_, _, _) => PW.Silent
    case Send(t, c, v) => if SendLock(s.chans[c], t, v).1.SendParks? then PW.Register(t) else PW.Silent
    case Recv(t, c) => if RecvLock(s.chans[c], t).1.RecvParks? then PW.Register(t) else PW.Silent
    case Close(_, _) => PW.Silent
    case WakeNext(t) => PW.Ready(s.pc[t].list[0])
    case Sleep(t) => PW.Register(t)
    case Commit(t) => PW.Commit(t)
    case Continue(_) => PW.Silent
    case TimerWake(t) => PW.Ready(t)
    case Finish(t) => PW.Finish(t)
  }

  function WakingPc<T>(list: seq<TaskId>, after: After<T>): Pc<T> {
    if list == [] then User else Waking(list, after)
  }

  function ApplySend<T>(s: Sys<T>, t: TaskId, c: ChanId, v: T): Sys<T>
    requires t in s.pc && c in s.chans
  {
    var n := |s.chans[c].sent|;
    var (ch, o) := SendLock(s.chans[c], t, v);
    match o
    case SendPanics => s.(aborted := true)
    case Delivered(r) =>
      s.(chans := s.chans[c := ch], pc := s.pc[t := Waking([r], SendDone(c, n))],
         regAt := Redirect(s.regAt, [r], Flight(t)))
    case Buffered => s.(chans := s.chans[c := ch])
    case SendParks =>
      s.(chans := s.chans[c := ch], pc := s.pc[t := Blocked(OnSend(c, n))],
         regAt := s.regAt[t := AtSendq(c)])
  }

  function ApplyRecv<T>(s: Sys<T>, t: TaskId, c: ChanId): Sys<T>
    requires t in s.pc && c in s.chans
  {
    var (ch, o) := RecvLock(s.chans[c], t);
    match o
    case RecvClosed => s
    case FromSender(x, v) =>
      s.(chans := s.chans[c := ch], pc := s.pc[t := Waking([x], RecvDone(c, v))],
         regAt := Redirect(s.regAt, [x], Flight(t)))
    case FromBuffer(v) => s.(chans := s.chans[c := ch])
    case RecvParks =>
      s.(chans := s.chans[c := ch], pc := s.pc[t := Blocked(OnRecv(c))],
         regAt := s.regAt[t := AtRecvq(c)])
    case RecvPanics => s.(aborted := true)
  }

  function ApplyClose<T>(s: Sys<T>, t: TaskId, c: ChanId): Sys<T>
    requires t in s.pc && c in s.chans
  {
    var (ch, o) := CloseLock(s.chans[c]);
    match o
    case ClosePanics => s.(aborted := true)
    case Closed(wake) =>
      s.(chans := s.chans[c := ch], pc := s.pc[t := WakingPc(wake, CloseDone)],
         regAt := Redirect(s.regAt, wake, Flight(t)))
  }

  function ApplyWakeNext<T>(s: Sys<T>, t: TaskId): Sys<T>
    requires t in s.pc && s.pc[t].Waking? && s.pc[t].list != []
  {
    var Waking(list, after) := s.pc[t];
    s.(regAt := s.regAt - {list[0]},
       pc := s.pc[t := WakingPc(list[1..], after)],
       chans := if |list| == 1 && after.RecvDone? && after.c in s.chans
                then s.chans[after.c := RecvReturn(s.chans[after.c], t, after.v)]
                else s.chans)
  }

  function ApplyContinue<T>(s: Sys<T>, t: TaskId): Sys<T>
    requires t in s.pc && s.pc[t].Resume? && (!s.pc[t].k.OnTimer? ==> s.pc[t].k.c in s.chans)
  {
    match s.pc[t].k
    case OnTimer => s.(pc := s.pc[t := User])
    case OnSend(c, n) =>
      if SendResumePanics(s.chans[c]) then s.(aborted := true) else s.(pc := s.pc[t := User])
    case OnRecv(c) =>
      s.(pc := s.pc[t := User], chans := s.chans[c := RecvResume(s.chans[c], t).0])
  }

  function Apply<T(==)>(s: Sys<T>, a: Action<T>): Sys<T>
    requires Enabled(s, a)
  {
    var s1 := s.(park := PW.Apply(s.park, LabelOf(s, a)));
    match a
    case Spawn(t) => s1.(pc := s.pc[s.park.next := User])
    case NewChan(t, c, cap) => s1.(chans := s.chans[c := WithCapacity(cap)])
    case Send(t, c, v) => ApplySend(s1, t, c, v)
    case Recv(t, c) => ApplyRecv(s1, t, c)
    case Close(t, c) => ApplyClose(s1, t, c)
    case WakeNext(t) => ApplyWakeNext(s1, t)
    case Sleep(t) => s1.(pc := s.pc[t := Blocked(OnTimer)], regAt := s.regAt[t := AtTimer])
    case Commit(t) => s1.(pc := s.pc[t := Resume(s.pc[t].k)])
    case Continue(t) => ApplyContinue(s1, t)
    case TimerWake(t) => s1.(regAt := s.regAt - {t})
    case Finish(t) => s1.(pc := s.pc[t := Finished])
  }

  function EventOf<T(==)>(s: Sys<T>, a: Action<T>): Event<T>
    requires Enabled(s, a)
  {
    if Apply(s, a).aborted then Panics else
    match a
    case Send(t, c, v) =>
      if SendLock(s.chans[c], t, v).1.Buffered? then SendReturns(c, |s.chans[c].sent|) else Nothing
    case Recv(t, c) =>
      (match RecvLock(s.chans[c], t).1
       case RecvClosed => RecvReturns(c, t, None)
       case FromBuffer(v) => RecvReturns(c, t, Some(v))
       case _ => Nothing)
    case WakeNext(t) =>
      (match s.pc[t].after
       case SendDone(c, n) => if |s.pc[t].list| == 1 then SendReturns(c, n) else Nothing
       case RecvDone(c, v) => if |s.pc[t].list| == 1 then RecvReturns(c, t, Some(v)) else Nothing
       case CloseDone => Nothing)
    case Continue(t) =>
      (match s.pc[t].k
       case OnSend(c, n) => SendReturns(c, n)
       case OnRecv(c) => RecvReturns(c, t, RecvResume(s.chans[c], t).1)
       case OnTimer => Nothing)
    case _ => Nothing
  }

  /** `n` tasks, and channels of the given capacities, made before the runtime starts. */
  function Init<T>(n: nat, caps: map<ChanId, nat>): Sys<T> {
    Sys(PW.Init(n), map t | t in FirstIds(n) :: User,
        map c | c in caps.Keys :: WithCapacity(caps[c]), map[], false)
  }

  // ---- Runs ----------------------------------------------------------------------------

  ghost predicate Run<T>(s: Sys<T>, acts: seq<Action<T>>)
    decreases |acts|, 0
  {
    acts == [] ||
    (var k := |acts| - 1; Run(s, acts[..k]) && Enabled(Exec(s, acts[..k]), acts[k]))
  }

  ghost function Exec<T>(s: Sys<T>, acts: seq<Action<T>>): Sys<T>
    requires Run(s, acts)
    decreases |acts|, 1
  {
    if acts == [] then s else Apply(Exec(s, acts[..|acts| - 1]), acts[|acts| - 1])
  }

  ghost predicate Reaches<T>(s: Sys<T>, n: nat, caps: map<ChanId, nat>, acts: seq<Action<T>>) {
    Run(Init(n, caps), acts) && s == Exec(Init(n, caps), acts)
  }

  /** `s` occurs in some run of the runtime. */
  ghost predicate Reachable<T(!new)>(s: Sys<T>) {
    exists n, caps, acts :: Reaches(s, n, caps, acts)
  }

  // ---- Invariant ---------------------------------------------------------------------

  /** Where the value of the n-th send of `ch` is, counted from the head of `sendq`. */
  function QueuePos<T>(ch: ChanState<T>, n: nat): int {
    n - |ch.handed| - |ch.buf|
  }

  /** The n-th value sent has been handed to a receiver or sits in the buffer. */
  predicate Placed<T>(ch: ChanState<T>, n: nat) {
    QueuePos(ch, n) < 0
  }

  /** The same, with the place where it is. */
  ghost predicate GotThrough<T>(ch: ChanState<T>, n: nat) {
    && Placed(ch, n) && n < |ch.sent|
    && ch.sent[n] == if n < |ch.handed| then ch.handed[n].1 else ch.buf[n - |ch.handed|]
  }

  /** A task waiting for `k` is registered there, or what it waits for has happened. */
  ghost predicate WaitOk<T>(s: Sys<T>, x: TaskId, k: Wait) {
    match k
    case OnTimer => x in s.regAt ==> s.regAt[x] == AtTimer
    case OnRecv(c) =>
      c in s.chans && var ch := s.chans[c];
      if x in s.regAt && !s.regAt[x].Flight?
      then s.regAt[x] == AtRecvq(c) && x in ch.recvq
      else x !in ch.recvq && (x in ch.delivered || (ch.closed && Queued(ch) == [] && ch.lost == []))
    case OnSend(c, n) =>
      c in s.chans && var ch := s.chans[c];
      if x in s.regAt && !s.regAt[x].Flight?
      then s.regAt[x] == AtSendq(c) && 0 <= QueuePos(ch, n) < |ch.sendq|
           && ch.sendq[QueuePos(ch, n)].id == x
      else ch.closed || Placed(ch, n)
  }

  ghost predicate AfterOk<T>(s: Sys<T>, x: TaskId, after: After<T>) {
    match after
    case SendDone(c, n) => c in s.chans && Placed(s.chans[c], n)
    case RecvDone(c, v) => c in s.chans
    case CloseDone => true
  }

  ghost predicate TaskOk<T>(s: Sys<T>, x: TaskId)
    requires x in s.pc
  {
    && (x in s.park.live <==> !s.pc[x].Finished?)
    && (x in s.park.parking <==> s.pc[x].Blocked?)
    && (x in s.park.waiting ==> s.pc[x].Resume?)
    && match s.pc[x]
       case Blocked(k) => WaitOk(s, x, k)
       case Resume(k) => WaitOk(s, x, k)
       case Waking(list, after) =>
         && list != []
         && NoDup(list)
         && (forall y :: y in list ==> y in s.regAt && s.regAt[y] == Flight(x))
         && AfterOk(s, x, after)
       case _ => true
  }

  predicate WaitsFor<T(==)>(s: Sys<T>, x: TaskId, k: Wait) {
    x in s.pc && (s.pc[x] == Blocked(k) || s.pc[x] == Resume(k))
  }

  ghost predicate RegOk<T>(s: Sys<T>, x: TaskId)
    requires x in s.regAt
  {
    && x in s.pc
    && (s.pc[x].Blocked? || s.pc[x].Resume?)
    && match s.regAt[x]
       case AtTimer => s.pc[x].k == OnTimer
       case AtRecvq(c) => s.pc[x].k == OnRecv(c)
       case AtSendq(c) => s.pc[x].k.OnSend? && s.pc[x].k.c == c
       case Flight(w) => !s.pc[x].k.OnTimer? && w in s.pc && s.pc[w].Waking? && x in s.pc[w].list
  }

  /** The value `r` has been given on channel `c` but whose `recv` has yet to return. */
  ghost function InHand<T>(s: Sys<T>, c: ChanId, r: TaskId): seq<T> {
    if r in s.pc && s.pc[r].Waking? && s.pc[r].after.RecvDone? && s.pc[r].after.c == c
    then [s.pc[r].after.v]
    else if c in s.chans && r in s.chans[c].delivered then [s.chans[c].delivered[r]]
    else []
  }

  /** Everyone queued on `c` is registered there and waits for just that. */
  ghost predicate QueuesOk<T>(s: Sys<T>, c: ChanId)
    requires c in s.chans
  {
    var ch := s.chans[c];
    && (forall y :: y in ch.recvq ==> WaitsFor(s, y, OnRecv(c)) && y in s.regAt && s.regAt[y] == AtRecvq(c))
    && (forall i :: 0 <= i < |ch.sendq| ==>
          && WaitsFor(s, ch.sendq[i].id, OnSend(c, |ch.handed| + |ch.buf| + i))
          && ch.sendq[i].id in s.regAt && s.regAt[ch.sendq[i].id] == AtSendq(c))
    && (forall y :: y in ch.delivered ==> WaitsFor(s, y, OnRecv(c)))
  }

  /** Receiver by receiver, and in order: what `recv` returned, then what it is about
      to return, is what the channel handed out. */
  ghost predicate HandsOk<T>(s: Sys<T>, c: ChanId)
    requires c in s.chans
  {
    forall r :: Proj(s.chans[c].returned, r) + InHand(s, c, r) == Proj(s.chans[c].handed, r)
  }

  ghost predicate ChanOk<T>(s: Sys<T>, c: ChanId)
    requires c in s.chans
  {
    ChanInv(s.chans[c]) && QueuesOk(s, c) && HandsOk(s, c)
  }

  ghost predicate Inv<T>(s: Sys<T>) {
    && PW.Inv(s.park)
    && s.regAt.Keys == s.park.reg
    && (forall x :: x in s.park.live ==> x in s.pc)
    && (forall x :: x in s.pc ==> x < s.park.next)
    && (forall x :: x in s.pc ==> TaskOk(s, x))
    && (forall x :: x in s.regAt ==> RegOk(s, x))
    && (forall c :: c in s.chans ==> ChanOk(s, c))
  }
}
