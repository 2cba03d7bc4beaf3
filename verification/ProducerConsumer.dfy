/** The producer/consumer pattern of examples/channel_demo.rs, end to end.

    Task 0 sends a finite sequence on channel 0 and closes it; tasks 1 to n receive until
    they get `None`.  The scheduler interleaves them as it likes. */
module ProducerConsumer {
  import opened Common
  import PW = ParkWake
  import opened Channel
  import opened ChannelSystem
  import opened ChannelInvariant
  import Theorems = ChannelTheorems

  /** `todo` is what the producer has yet to send; `ended` are the producer once it has
      closed the channel, and the consumers that got `None`. */
  datatype World<T> = World(sys: Sys<T>, todo: seq<T>, ended: set<TaskId>)

  function Start<T>(input: seq<T>, cap: nat, n: nat): World<T> {
    World(Init(n + 1, map[0 := cap]), input, {})
  }

  /** The actions the two programs can take. */
  predicate Allowed<T(==)>(w: World<T>, a: Action<T>) {
    Enabled(w.sys, a) &&
    match a
    case Send(t, c, v) => t == 0 && c == 0 && w.todo != [] && v == w.todo[0]
    case Close(t, c) => t == 0 && c == 0 && w.todo == [] && 0 !in w.ended
    case Recv(t, c) => t != 0 && c == 0 && t !in w.ended
    case Finish(t) => t in w.ended
    case Commit(_) => true
    case WakeNext(_) => true
    case Continue(_) => true
    case _ => false
  }

  function Next<T(==)>(w: World<T>, a: Action<T>): World<T>
    requires Allowed(w, a)
  {
    World(Apply(w.sys, a),
          if a.Send? then w.todo[1..] else w.todo,
          if a.Close? then w.ended + {0}
          else if EndsConsumer(w, a) then w.ended + {a.t}
          else w.ended)
  }

  predicate EndsConsumer<T(==)>(w: World<T>, a: Action<T>)
    requires Allowed(w, a)
  {
    match EventOf(w.sys, a)
    case RecvReturns(c, t, r) => r == None
    case _ => false
  }

  // ---- Invariant of the pattern ----------------------------------------------------------

  ghost predicate TaskFits<T>(w: World<T>, t: TaskId)
    requires t in w.sys.pc && 0 in w.sys.chans
  {
    match w.sys.pc[t]
    case Blocked(k) => t !in w.ended && WaitFits(t, k)
    case Resume(k) => t !in w.ended && WaitFits(t, k)
    case Finished => t in w.ended
    case Waking(list, after) =>
      && (t == 0 ==> !after.RecvDone?)
      && (t != 0 ==> t !in w.ended && after.RecvDone? && after.c == 0 && |list| == 1)
    case User => true
  }

  predicate WaitFits(t: TaskId, k: Wait) {
    match k
    case OnSend(c, _) => t == 0 && c == 0
    case OnRecv(c) => t != 0 && c == 0
    case OnTimer => false
  }

  ghost predicate LogFits<T>(h: seq<(TaskId, T)>, n: nat) {
    forall i :: 0 <= i < |h| ==> 1 <= h[i].0 <= n
  }

  ghost predicate ChanFits<T>(w: World<T>, input: seq<T>, n: nat)
    requires 0 in w.sys.chans
  {
    var ch := w.sys.chans[0];
    && ch.sent + w.todo == input
    && ch.lost == []
    && (ch.closed <==> 0 in w.ended)
    && (ch.closed ==> w.todo == [])
    && (forall t :: t in w.ended && t != 0 ==> ch.closed && Queued(ch) == [])
    && LogFits(ch.handed, n) && LogFits(ch.returned, n)
  }

  ghost predicate Good<T>(w: World<T>, input: seq<T>, n: nat) {
    && Inv(w.sys) && !w.sys.aborted
    && w.sys.chans.Keys == {0}
    && (forall t: TaskId :: t in w.sys.pc <==> t <= n)
    && (forall t :: t in w.sys.pc ==> TaskFits(w, t))
    && ChanFits(w, input, n)
  }

  lemma StartIsGood<T>(input: seq<T>, cap: nat, n: nat)
    ensures Good(Start(input, cap, n), input, n)
  {
    InitInv<T>(n + 1, map[0 := cap]);
    var w := Start(input, cap, n);
    assert w.sys.chans[0] == WithCapacity(cap);
    assert w.sys.chans.Keys == {0};
    assert w.sys.chans[0].sent + w.todo == input;
    forall t: TaskId ensures t in w.sys.pc <==> t <= n {
      assert t in FirstIds(n + 1) <==> t < n + 1;
    }
  }

  /** Only the producer ever waits in `sendq`, only consumers in `recvq`. */
  lemma QueueMembers<T>(w: World<T>, input: seq<T>, n: nat)
    requires Good(w, input, n)
    ensures var ch := w.sys.chans[0];
      && (w.sys.pc[0] == User ==> ch.sendq == [])
      && (forall i :: 0 <= i < |ch.recvq| ==> 1 <= ch.recvq[i] <= n)
  {
    var ch := w.sys.chans[0];
    assert ChanOk(w.sys, 0);
    if ch.sendq != [] {
      assert WaitsFor(w.sys, ch.sendq[0].id, OnSend(0, |ch.handed| + |ch.buf| + 0));
      WaitsAsItShould(w, ch.sendq[0].id, OnSend(0, |ch.handed| + |ch.buf| + 0));
    }
    forall i | 0 <= i < |ch.recvq| ensures 1 <= ch.recvq[i] <= n {
      assert ch.recvq[i] in ch.recvq;
      WaitsAsItShould(w, ch.recvq[i], OnRecv(0));
    }
  }

  lemma WaitsAsItShould<T>(w: World<T>, t: TaskId, k: Wait)
    requires 0 in w.sys.chans && WaitsFor(w.sys, t, k)
    requires forall x :: x in w.sys.pc ==> TaskFits(w, x)
    ensures WaitFits(t, k) && !w.sys.pc[t].User?
  {
    assert TaskFits(w, t);
  }

  /** An action moves only the task that takes it, and only channel 0. */
  lemma OnlyActor<T>(w: World<T>, a: Action<T>)
    requires Allowed(w, a)
    ensures a.t in w.sys.pc && Next(w, a).sys.pc.Keys == w.sys.pc.Keys
    ensures w.sys.chans.Keys == {0} ==> Next(w, a).sys.chans.Keys == {0}
    ensures forall x :: x in w.sys.pc && x != a.t ==>
              Next(w, a).sys.pc[x] == w.sys.pc[x] && (x in Next(w, a).ended <==> x in w.ended)
  {
  }

  /** What is left to show of an action. */
  lemma GoodAgain<T>(w: World<T>, a: Action<T>, input: seq<T>, n: nat)
    requires Good(w, input, n) && Allowed(w, a)
    requires !Next(w, a).sys.aborted
    requires a.t in Next(w, a).sys.pc && 0 in Next(w, a).sys.chans
    requires TaskFits(Next(w, a), a.t) && ChanFits(Next(w, a), input, n)
    ensures Good(Next(w, a), input, n)
  {
    StepKeepsInv(w.sys, a);
    OnlyActor(w, a);
    var w' := Next(w, a);
    forall t | t in w'.sys.pc ensures TaskFits(w', t) {
      assert TaskFits(w, t);
    }
  }

  lemma SendFits<T>(w: World<T>, a: Action<T>, input: seq<T>, n: nat)
    requires Allowed(w, a) && a.Send?
    requires ChanFits(w, input, n)
    requires forall i :: 0 <= i < |w.sys.chans[0].recvq| ==> 1 <= w.sys.chans[0].recvq[i] <= n
    requires 0 !in w.ended
    ensures var w' := Next(w, a);
      0 in w'.sys.pc && 0 in w'.sys.chans && !w'.sys.aborted && TaskFits(w', 0) && ChanFits(w', input, n)
  {
    assert [w.todo[0]] + w.todo[1..] == w.todo;
    assert (w.sys.chans[0].sent + [w.todo[0]]) + w.todo[1..] == input;
  }

  lemma RecvFits<T>(w: World<T>, a: Action<T>, input: seq<T>, n: nat)
    requires Allowed(w, a) && a.Recv?
    requires ChanFits(w, input, n) && Shape(w.sys.chans[0]) && 1 <= a.t <= n
    ensures var w' := Next(w, a);
      a.t in w'.sys.pc && 0 in w'.sys.chans && !w'.sys.aborted && TaskFits(w', a.t) && ChanFits(w', input, n)
  {
    RecvLeaves(w.sys.chans[0], a.t, n);
  }

  lemma RecvLeaves<T>(ch: ChanState<T>, t: TaskId, n: nat)
    requires Shape(ch) && LogFits(ch.handed, n) && LogFits(ch.returned, n) && 1 <= t <= n
    ensures var (ch', o) := RecvLock(ch, t);
      && !o.RecvPanics?
      && ch'.sent == ch.sent && ch'.lost == ch.lost && ch'.closed == ch.closed
      && (Queued(ch) == [] ==> Queued(ch') == [])
      && LogFits(ch'.handed, n) && LogFits(ch'.returned, n)
  {
    assert Data<T>([]) == [];
  }

  lemma CloseFits<T>(w: World<T>, a: Action<T>, input: seq<T>, n: nat)
    requires Allowed(w, a) && a.Close?
    requires ChanFits(w, input, n) && w.sys.chans[0].sendq == []
    ensures var w' := Next(w, a);
      0 in w'.sys.pc && 0 in w'.sys.chans && !w'.sys.aborted && TaskFits(w', 0) && ChanFits(w', input, n)
  {
    assert Data(w.sys.chans[0].sendq) == [];
  }

  lemma WakeFits<T>(w: World<T>, a: Action<T>, input: seq<T>, n: nat)
    requires Allowed(w, a) && a.WakeNext?
    requires a.t in w.sys.pc && a.t <= n && 0 in w.sys.chans
    requires ChanFits(w, input, n) && TaskFits(w, a.t)
    ensures var w' := Next(w, a);
      a.t in w'.sys.pc && 0 in w'.sys.chans && !w'.sys.aborted && TaskFits(w', a.t) && ChanFits(w', input, n)
  {
  }

  lemma ContinueFits<T>(w: World<T>, a: Action<T>, input: seq<T>, n: nat)
    requires Allowed(w, a) && a.Continue?
    requires a.t in w.sys.pc && a.t <= n && 0 in w.sys.chans
    requires ChanFits(w, input, n) && TaskFits(w, a.t)
    requires WaitOk(w.sys, a.t, w.sys.pc[a.t].k) && a.t !in w.sys.regAt
    ensures var w' := Next(w, a);
      a.t in w'.sys.pc && 0 in w'.sys.chans && !w'.sys.aborted && TaskFits(w', a.t) && ChanFits(w', input, n)
  {
  }

  lemma RestFits<T>(w: World<T>, a: Action<T>, input: seq<T>, n: nat)
    requires Allowed(w, a) && (a.Commit? || a.Finish?)
    requires a.t in w.sys.pc && 0 in w.sys.chans
    requires ChanFits(w, input, n) && TaskFits(w, a.t)
    ensures var w' := Next(w, a);
      a.t in w'.sys.pc && 0 in w'.sys.chans && !w'.sys.aborted && TaskFits(w', a.t) && ChanFits(w', input, n)
  {
  }

  /** No run of the pattern aborts, and the pattern keeps its shape. */
  lemma StepIsGood<T>(w: World<T>, a: Action<T>, input: seq<T>, n: nat)
    requires Good(w, input, n) && Allowed(w, a)
    ensures Good(Next(w, a), input, n)
  {
    assert a.t in w.sys.pc && TaskFits(w, a.t) && TaskOk(w.sys, a.t);
    assert ChanOk(w.sys, 0);
    match a {
      case Send(_, _, _) =>
        QueueMembers(w, input, n);
        SendFits(w, a, input, n);
      case Recv(_, _) => RecvFits(w, a, input, n);
      case Close(_, _) =>
        QueueMembers(w, input, n);
        CloseFits(w, a, input, n);
      case WakeNext(_) => WakeFits(w, a, input, n);
      case Continue(t) =>
        assert t !in w.sys.park.reg;
        ContinueFits(w, a, input, n);
      case _ => RestFits(w, a, input, n);
    }
    GoodAgain(w, a, input, n);
  }

  // ---- Every run is finite -----------------------------------------------------------------

  /** What task `t` can still do without any further hand-off. */
  function Effort<T>(w: World<T>, t: TaskId): nat
    requires t in w.sys.pc
  {
    var base := if t == 0 || t in w.ended then 1 else 6;
    match w.sys.pc[t]
    case Finished => 0
    case User => base
    case Waking(list, _) => base + |list|
    case Blocked(_) => if t == 0 then 3 else 4
    case Resume(_) => if t == 0 then 2 else 3
  }

  ghost function Efforts<T>(w: World<T>, k: nat): nat
    requires forall t: nat :: t < k ==> t in w.sys.pc
  {
    if k == 0 then 0 else Efforts(w, k - 1) + Effort(w, k - 1)
  }

  /** The step measure: hand-offs and sends to come, wakeups in store, and efforts. */
  ghost function Measure<T>(w: World<T>, input: seq<T>, n: nat): int
    requires forall t: nat :: t < n + 1 ==> t in w.sys.pc
    requires 0 in w.sys.chans
  {
    var ch := w.sys.chans[0];
    3 * |w.todo| + 3 * (|input| - |ch.handed|) + |ch.recvq| + 4 * |ch.delivered|
    + (if ch.closed then 0 else 2) + Efforts(w, n + 1)
  }

  lemma {:induction false} EffortsChange<T>(w: World<T>, w': World<T>, k: nat, t: TaskId)
    requires forall x: nat :: x < k ==> x in w.sys.pc && x in w'.sys.pc
    requires forall x: nat :: x < k && x != t ==> Effort(w, x) == Effort(w', x)
    ensures Efforts(w', k) == Efforts(w, k) + if t < k then Effort(w', t) - Effort(w, t) else 0
  {
    if k > 0 {
      EffortsChange(w, w', k - 1, t);
    }
  }

  /** The part of the measure that belongs to the channel and the acting task. */
  ghost function Local<T>(w: World<T>, t: TaskId): int
    requires t in w.sys.pc && 0 in w.sys.chans
  {
    ChanEffort(w.sys.chans[0]) + 3 * |w.todo| + Effort(w, t)
  }

  ghost function ChanEffort<T>(ch: ChanState<T>): int {
    |ch.recvq| + 4 * |ch.delivered| + (if ch.closed then 0 else 2) - 3 * |ch.handed|
  }

  /** Every step of the pattern brings its end nearer. */
  lemma Decreases<T>(w: World<T>, a: Action<T>, input: seq<T>, n: nat)
    requires Good(w, input, n) && Allowed(w, a)
    ensures Good(Next(w, a), input, n)
    ensures Measure(Next(w, a), input, n) < Measure(w, input, n)
  {
    StepIsGood(w, a, input, n);
    OnlyActor(w, a);
    LocalDecreases(w, a, input, n);
    OthersKeepEffort(w, Next(w, a), input, n, a.t);
  }

  lemma OthersKeepEffort<T>(w: World<T>, w': World<T>, input: seq<T>, n: nat, t: TaskId)
    requires forall x: nat :: x < n + 1 ==> x in w.sys.pc && x in w'.sys.pc
    requires forall x: nat :: x < n + 1 && x != t ==>
               w'.sys.pc[x] == w.sys.pc[x] && (x in w'.ended <==> x in w.ended)
    requires t <= n && 0 in w.sys.chans && 0 in w'.sys.chans
    requires Local(w', t) < Local(w, t)
    ensures Measure(w', input, n) < Measure(w, input, n)
  {
    EffortsChange(w, w', n + 1, t);
  }

  lemma SendCost<T>(ch: ChanState<T>, t: TaskId, v: T)
    requires Shape(ch)
    ensures ChanEffort(SendLock(ch, t, v).0) == ChanEffort(ch)
  {
    if !ch.closed && ch.recvq != [] {
      assert ch.recvq[0] in ch.recvq;
      assert (ch.delivered[ch.recvq[0] := v]).Keys == ch.delivered.Keys + {ch.recvq[0]};
    }
  }

  lemma RecvCost<T>(ch: ChanState<T>, t: TaskId)
    ensures var (ch', o) := RecvLock(ch, t);
      ChanEffort(ch') == ChanEffort(ch) +
        match o { case FromSender(_, _) => -3 case FromBuffer(_) => -3 case RecvParks => 1 case _ => 0 }
  {
  }

  lemma ResumeCost<T>(ch: ChanState<T>, t: TaskId)
    ensures var (ch', r) := RecvResume(ch, t);
      ChanEffort(ch') == ChanEffort(ch) - if r.Some? then 4 else 0
  {
    if t in ch.delivered {
      assert (ch.delivered - {t}).Keys == ch.delivered.Keys - {t};
    }
  }

  lemma LocalDecreases<T>(w: World<T>, a: Action<T>, input: seq<T>, n: nat)
    requires Good(w, input, n) && Allowed(w, a)
    requires a.t in w.sys.pc && a.t in Next(w, a).sys.pc && 0 in Next(w, a).sys.chans
    ensures Local(Next(w, a), a.t) < Local(w, a.t)
  {
    assert TaskFits(w, a.t) && TaskOk(w.sys, a.t) && ChanOk(w.sys, 0);
    match a {
      case Send(_, _, _) =>
        LocalSend(w, a);
      case Recv(_, _) => LocalRecv(w, a);
      case Close(_, _) =>
        QueueMembers(w, input, n);
        LocalClose(w, a);
      case Continue(t) =>
        assert t !in w.sys.park.reg;
        LocalContinue(w, a);
      case _ => LocalRest(w, a);
    }
  }

  lemma LocalSend<T>(w: World<T>, a: Action<T>)
    requires Allowed(w, a) && a.Send? && 0 in w.sys.chans && Shape(w.sys.chans[0])
    requires 0 !in w.ended && !w.sys.chans[0].closed
    ensures a.t in Next(w, a).sys.pc && 0 in Next(w, a).sys.chans
    ensures Local(Next(w, a), a.t) < Local(w, a.t)
  {
    SendCost(w.sys.chans[0], a.t, a.v);
  }

  lemma LocalRecv<T>(w: World<T>, a: Action<T>)
    requires Allowed(w, a) && a.Recv? && 0 in w.sys.chans && Shape(w.sys.chans[0])
    ensures a.t in Next(w, a).sys.pc && 0 in Next(w, a).sys.chans
    ensures Local(Next(w, a), a.t) < Local(w, a.t)
  {
    RecvCost(w.sys.chans[0], a.t);
  }

  lemma LocalClose<T>(w: World<T>, a: Action<T>)
    requires Allowed(w, a) && a.Close? && 0 in w.sys.chans && w.sys.chans[0].sendq == []
    requires !w.sys.chans[0].closed
    ensures a.t in Next(w, a).sys.pc && 0 in Next(w, a).sys.chans
    ensures Local(Next(w, a), a.t) < Local(w, a.t)
  {
  }

  lemma LocalContinue<T>(w: World<T>, a: Action<T>)
    requires Allowed(w, a) && a.Continue? && a.t in w.sys.pc && 0 in w.sys.chans && TaskFits(w, a.t)
    requires WaitOk(w.sys, a.t, w.sys.pc[a.t].k) && a.t !in w.sys.regAt
    requires a.t == 0 ==> !w.sys.chans[0].closed
    ensures a.t in Next(w, a).sys.pc && 0 in Next(w, a).sys.chans
    ensures Local(Next(w, a), a.t) < Local(w, a.t)
  {
    ResumeCost(w.sys.chans[0], a.t);
  }

  lemma LocalRest<T>(w: World<T>, a: Action<T>)
    requires Allowed(w, a) && (a.WakeNext? || a.Commit? || a.Finish?)
    requires a.t in w.sys.pc && 0 in w.sys.chans && TaskFits(w, a.t)
    ensures a.t in Next(w, a).sys.pc && 0 in Next(w, a).sys.chans
    ensures Local(Next(w, a), a.t) < Local(w, a.t)
  {
  }

  // ---- The pattern as a whole ---------------------------------------------------------------

  /** A step is possible as long as some task has not finished: a deadlock would have to
      be a real one, and the pattern has none. */
  lemma SomethingToDo<T(!new)>(w: World<T>, input: seq<T>, n: nat, x: TaskId)
    requires Good(w, input, n) && n >= 1
    requires x in w.sys.pc && !w.sys.pc[x].Finished?
    ensures exists a :: Allowed(w, a)
  {
    assert TaskOk(w.sys, x);
    if t: TaskId :| t in w.sys.park.live && PW.Active(w.sys.park, t) {
      ActiveCanMove(w, input, n, t);
    } else if t: TaskId :| t in w.sys.park.parking {
      assert TaskOk(w.sys, t);
      assert Allowed(w, Commit(t));
    } else {
      NoDeadlock(w, input, n, x);
    }
  }

  lemma ActiveCanMove<T(!new)>(w: World<T>, input: seq<T>, n: nat, t: TaskId)
    requires Good(w, input, n) && PW.Active(w.sys.park, t)
    ensures exists a :: Allowed(w, a)
  {
    assert TaskOk(w.sys, t) && TaskFits(w, t);
    match w.sys.pc[t]
    case Waking(_, _) => assert Allowed(w, WakeNext(t));
    case Resume(_) => assert Allowed(w, Continue(t));
    case User => UserCanMove(w, t);
    case _ =>
  }

  lemma UserCanMove<T(!new)>(w: World<T>, t: TaskId)
    requires InUser(w.sys, t) && !w.sys.aborted && 0 in w.sys.chans
    ensures exists a :: Allowed(w, a)
  {
    var a: Action<T> :=
      if t in w.ended then Action.Finish(t)
      else if t != 0 then Action.Recv(t, 0)
      else if w.todo != [] then Action.Send(t, 0, w.todo[0])
      else Action.Close(t, 0);
    assert Allowed(w, a);
  }

  /** Parked with nobody to wake it, the producer would face an empty `recvq` and a
      consumer a non-empty one. */
  lemma NoDeadlock<T>(w: World<T>, input: seq<T>, n: nat, x: TaskId)
    requires Good(w, input, n) && n >= 1
    requires x in w.sys.park.live
    ensures exists t :: t in w.sys.park.live && t !in w.sys.park.waiting
  {
    if forall t :: t in w.sys.park.live ==> t in w.sys.park.waiting {
      NoTimers(w, input, n);
      StuckHere(w, input, n, x);
      BothAlive(w, input, n);
      StuckHere(w, input, n, 0);
      StuckHere(w, input, n, 1);
      assert false;
    }
  }

  lemma NoTimers<T>(w: World<T>, input: seq<T>, n: nat)
    requires Good(w, input, n)
    ensures forall t :: t in w.sys.regAt ==> w.sys.regAt[t] != AtTimer
  {
    forall t | t in w.sys.regAt ensures w.sys.regAt[t] != AtTimer {
      assert RegOk(w.sys, t) && TaskFits(w, t);
    }
  }

  lemma BothAlive<T>(w: World<T>, input: seq<T>, n: nat)
    requires Good(w, input, n) && n >= 1 && !w.sys.chans[0].closed
    ensures 0 in w.sys.park.live && 1 in w.sys.park.live
  {
    assert TaskOk(w.sys, 0) && TaskFits(w, 0) && TaskOk(w.sys, 1) && TaskFits(w, 1);
  }

  lemma StuckHere<T>(w: World<T>, input: seq<T>, n: nat, x: TaskId)
    requires Good(w, input, n)
    requires x in w.sys.park.live
    requires forall t :: t in w.sys.park.live ==> t in w.sys.park.waiting
    requires forall t :: t in w.sys.regAt ==> w.sys.regAt[t] != AtTimer
    ensures var ch := w.sys.chans[0];
      !ch.closed && (if x == 0 then ch.recvq == [] else ch.recvq != [])
  {
    Theorems.Stuck(w.sys, x);
    assert TaskFits(w, x);
  }

  lemma Completed<T(!new)>(w: World<T>, input: seq<T>, n: nat)
    requires Good(w, input, n) && n >= 1
    requires forall t :: t in w.sys.pc ==> w.sys.pc[t].Finished?
    ensures var ch := w.sys.chans[0];
      && ch.sent == input == Vals(ch.handed)
      && multiset(ch.returned) == multiset(ch.handed)
  {
    var s, ch := w.sys, w.sys.chans[0];
    assert ChanOk(s, 0) && TaskFits(w, 0) && TaskFits(w, 1);
    forall r ensures Proj(ch.returned, r) == Proj(ch.handed, r) {
      assert r in ch.delivered ==> WaitsFor(s, r, OnRecv(0));
      assert InHand(s, 0, r) == [];
      assert Proj(ch.returned, r) + InHand(s, 0, r) == Proj(ch.handed, r);
    }
    SameProjections(ch.returned, ch.handed);
    assert input == Vals(ch.handed) + [] + [];
  }

  lemma SoleReceiver<T>(h: seq<(TaskId, T)>, g: seq<(TaskId, T)>)
    requires LogFits(h, 1) && LogFits(g, 1) && Proj(h, 1) == Proj(g, 1)
    ensures Vals(h) == Vals(g)
  {
    ProjAll(h, 1);
    ProjAll(g, 1);
  }

  /** Taking one entry out of a log takes it, and its value, out of the multisets. */
  lemma WithoutEntry<T>(h: seq<(TaskId, T)>, i: nat)
    requires i < |h|
    ensures var rest := h[..i] + h[i + 1..];
      && multiset(rest) == multiset(h) - multiset{h[i]}
      && multiset(Vals(h)) == multiset(Vals(rest)) + multiset{h[i].1}
  {
    var rest := h[..i] + h[i + 1..];
    assert h == h[..i] + [h[i]] + h[i + 1..];
    assert multiset(h) == multiset(rest) + multiset{h[i]};
    assert Vals(h) == Vals(h)[..i] + [h[i].1] + Vals(h)[i + 1..];
    assert Vals(rest) == Vals(h)[..i] + Vals(h)[i + 1..];
  }

  /** The values in a log, as a multiset, depend only on the log as a multiset. */
  lemma {:induction false} ValsOfPermutation<T>(a: seq<(TaskId, T)>, b: seq<(TaskId, T)>)
    requires multiset(a) == multiset(b)
    ensures multiset(Vals(a)) == multiset(Vals(b))
  {
    assert |multiset(a)| == |a| && |multiset(b)| == |b|;
    if a != [] {
      assert a[0] in multiset(b);
      var i :| 0 <= i < |b| && b[i] == a[0];
      WithoutEntry(a, 0);
      WithoutEntry(b, i);
      ValsOfPermutation(a[..0] + a[1..], b[..i] + b[i + 1..]);
    }
  }

  ghost predicate Run<T>(w: World<T>, acts: seq<Action<T>>)
    decreases |acts|, 0
  {
    acts == [] ||
    (var k := |acts| - 1; Run(w, acts[..k]) && Allowed(Exec(w, acts[..k]), acts[k]))
  }

  ghost function Exec<T>(w: World<T>, acts: seq<Action<T>>): World<T>
    requires Run(w, acts)
    decreases |acts|, 1
  {
    if acts == [] then w else Next(Exec(w, acts[..|acts| - 1]), acts[|acts| - 1])
  }

  lemma {:induction false} RunIsGood<T>(input: seq<T>, cap: nat, n: nat, acts: seq<Action<T>>)
    requires Run(Start(input, cap, n), acts)
    ensures var w := Exec(Start(input, cap, n), acts);
      Good(w, input, n) && |acts| + Measure(w, input, n) <= Measure(Start(input, cap, n), input, n)
  {
    StartIsGood(input, cap, n);
    if acts != [] {
      var k := |acts| - 1;
      RunIsGood(input, cap, n, acts[..k]);
      Decreases(Exec(Start(input, cap, n), acts[..k]), acts[k], input, n);
    }
  }

  lemma {:induction false} StartEfforts<T>(input: seq<T>, cap: nat, n: nat, k: nat)
    requires k <= n
    requires forall t: nat :: t < n + 1 ==> t in Start(input, cap, n).sys.pc
    ensures Efforts(Start(input, cap, n), k + 1) == 1 + 6 * k
  {
    var w := Start(input, cap, n);
    if k == 0 {
      assert Efforts(w, 1) == Efforts(w, 0) + Effort(w, 0);
    } else {
      StartEfforts(input, cap, n, k - 1);
    }
  }

  lemma StartMeasure<T>(input: seq<T>, cap: nat, n: nat)
    ensures Good(Start(input, cap, n), input, n)
    ensures Measure(Start(input, cap, n), input, n) == 6 * |input| + 6 * n + 3
  {
    StartIsGood(input, cap, n);
    StartEfforts(input, cap, n, n);
    assert Start(input, cap, n).sys.chans[0] == WithCapacity(cap);
  }

  lemma MeasureNonNegative<T>(w: World<T>, input: seq<T>, n: nat)
    requires Good(w, input, n)
    ensures Measure(w, input, n) >= 0
  {
    assert ChanOk(w.sys, 0);
  }

  /** For every input, every capacity, every positive number of consumers and every
      interleaving: no run aborts; no run takes more than `6 |input| + 6 n + 3` steps; it
      can stop only when all tasks have finished, and then the consumers together have
      received exactly the values sent, and a single consumer exactly that sequence. */
  lemma ProducerConsumerCorrect<T(!new)>(input: seq<T>, cap: nat, n: nat, acts: seq<Action<T>>)
    requires n >= 1 && Run(Start(input, cap, n), acts)
    ensures var w := Exec(Start(input, cap, n), acts);
      && !w.sys.aborted
      && |acts| <= 6 * |input| + 6 * n + 3
      && ((forall a :: !Allowed(w, a)) ==> AllDone(w, input, n))
  {
    RunIsGood(input, cap, n, acts);
    StartMeasure(input, cap, n);
    var w := Exec(Start(input, cap, n), acts);
    MeasureNonNegative(w, input, n);
    if forall a :: !Allowed(w, a) {
      Stopped(w, input, n);
    }
  }

  lemma Stopped<T(!new)>(w: World<T>, input: seq<T>, n: nat)
    requires Good(w, input, n) && n >= 1
    requires forall a :: !Allowed(w, a)
    ensures AllDone(w, input, n)
  {
    forall t | t in w.sys.pc ensures w.sys.pc[t].Finished? {
      if !w.sys.pc[t].Finished? {
        SomethingToDo(w, input, n, t);
      }
    }
    FinishedIsDone(w, input, n);
  }

  /** Everyone has finished, and the consumers have got the values sent. */
  ghost predicate AllDone<T>(w: World<T>, input: seq<T>, n: nat) {
    && (forall t: TaskId :: t <= n ==> t in w.sys.pc && w.sys.pc[t].Finished?)
    && 0 in w.sys.chans
    && multiset(Vals(w.sys.chans[0].returned)) == multiset(input)
    && (n == 1 ==> Vals(w.sys.chans[0].returned) == input)
  }

  lemma FinishedIsDone<T(!new)>(w: World<T>, input: seq<T>, n: nat)
    requires Good(w, input, n) && n >= 1
    requires forall t :: t in w.sys.pc ==> w.sys.pc[t].Finished?
    ensures AllDone(w, input, n)
  {
    Completed(w, input, n);
    var ch := w.sys.chans[0];
    ValsOfPermutation(ch.returned, ch.handed);
    if n == 1 {
      ProjOfFinished(w, input, n);
      SoleReceiver(ch.returned, ch.handed);
    }
  }

  lemma ProjOfFinished<T>(w: World<T>, input: seq<T>, n: nat)
    requires Good(w, input, n)
    requires forall t :: t in w.sys.pc ==> w.sys.pc[t].Finished?
    ensures Proj(w.sys.chans[0].returned, 1) == Proj(w.sys.chans[0].handed, 1)
  {
    var s, ch := w.sys, w.sys.chans[0];
    assert ChanOk(s, 0);
    assert 1 in ch.delivered ==> WaitsFor(s, 1, OnRecv(0));
    assert Proj(ch.returned, 1) + InHand(s, 0, 1) == Proj(ch.handed, 1);
  }
}
