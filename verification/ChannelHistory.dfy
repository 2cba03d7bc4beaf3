/** What a run of ChannelSystem says about its own past: which `close` a wakeup came from,
    what became of a parked sender's value, and which queue operations a run amounts to. */
module ChannelHistory {
  import opened Common
  import PW = ParkWake
  import opened Channel
  import opened ChannelSystem
  import opened ChannelInvariant
  import Theorems = ChannelTheorems

  /** The k-th action of the run closes channel `c`. */
  ghost predicate ClosesAt<T>(s: Sys<T>, acts: seq<Action<T>>, k: nat, c: ChanId) {
    && k < |acts| && Run(s, acts[..k]) && Enabled(Exec(s, acts[..k]), acts[k])
    && Closes(Exec(s, acts[..k]), acts[k], c)
  }

  predicate Closes<T(==)>(s: Sys<T>, a: Action<T>, c: ChanId) {
    a.Close? && a.c == c && c in s.chans && !s.chans[c].closed
  }

  lemma ClosesAtLater<T>(s: Sys<T>, acts: seq<Action<T>>, m: nat, k: nat, c: ChanId)
    requires m <= |acts| && ClosesAt(s, acts[..m], k, c)
    ensures ClosesAt(s, acts, k, c) && Exec(s, acts[..m][..k]) == Exec(s, acts[..k])
  {
    assert acts[..m][..k] == acts[..k] && acts[..m][k] == acts[k];
  }

  // ---- After a close ------------------------------------------------------------------------

  /** Once `c` is closed it stays so, nothing more is delivered, and the values that got
      through stay the same. */
  ghost predicate StaysClosed<T>(s: Sys<T>, s': Sys<T>, c: ChanId) {
    && c in s.chans && c in s'.chans && s'.chans[c].closed
    && |s'.chans[c].handed| + |s'.chans[c].buf| == |s.chans[c].handed| + |s.chans[c].buf|
    && s'.chans[c].delivered.Keys <= s.chans[c].delivered.Keys
  }

  lemma ClosingStep<T>(s: Sys<T>, a: Action<T>, c: ChanId)
    requires Enabled(s, a) && Closes(s, a, c)
    ensures StaysClosed(s, Apply(s, a), c)
  {
  }

  lemma ClosedStep<T>(s: Sys<T>, a: Action<T>, c: ChanId)
    requires Inv(s) && Enabled(s, a) && c in s.chans && s.chans[c].closed
    ensures StaysClosed(s, Apply(s, a), c)
  {
    Theorems.ClosedStep(s, a, c);
    var (ch, ch') := (s.chans[c], Apply(s, a).chans[c]);
    assert |Vals(ch'.handed) + ch'.buf| == |Vals(ch.handed) + ch.buf|;
    ClosedDelivered(s, a, c);
  }

  lemma ClosedDelivered<T>(s: Sys<T>, a: Action<T>, c: ChanId)
    requires Enabled(s, a) && c in s.chans && s.chans[c].closed && c in Apply(s, a).chans
    ensures Apply(s, a).chans[c].delivered.Keys <= s.chans[c].delivered.Keys
  {
  }

  lemma {:induction false} SinceClose<T>(s: Sys<T>, acts: seq<Action<T>>, k: nat, c: ChanId)
    requires Inv(s) && Run(s, acts) && ClosesAt(s, acts, k, c)
    ensures StaysClosed(Exec(s, acts[..k]), Exec(s, acts), c)
  {
    var m := |acts| - 1;
    RunKeepsInv(s, acts[..m]);
    if k == m {
      ClosingStep(Exec(s, acts[..m]), acts[m], c);
    } else {
      ClosedEarlier(s, acts, m, k, c);
      SinceClose(s, acts[..m], k, c);
      ClosedStep(Exec(s, acts[..m]), acts[m], c);
      StaysClosedTwice(Exec(s, acts[..k]), Exec(s, acts[..m]), Exec(s, acts), c);
    }
  }

  lemma ClosedEarlier<T>(s: Sys<T>, acts: seq<Action<T>>, m: nat, k: nat, c: ChanId)
    requires k < m <= |acts| && ClosesAt(s, acts, k, c)
    ensures ClosesAt(s, acts[..m], k, c) && Exec(s, acts[..m][..k]) == Exec(s, acts[..k])
  {
    assert acts[..m][..k] == acts[..k] && acts[..m][k] == acts[k];
  }

  lemma StaysClosedTwice<T>(s: Sys<T>, r: Sys<T>, s': Sys<T>, c: ChanId)
    requires StaysClosed(s, r, c) && StaysClosed(r, s', c)
    ensures StaysClosed(s, s', c)
  {
  }

  // ---- Receivers that get None ---------------------------------------------------------------

  /** `t` waits to receive, but is no longer queued and has been given nothing. */
  ghost predicate LeftEmptyHanded<T>(s: Sys<T>, c: ChanId, t: TaskId) {
    && WaitsFor(s, t, OnRecv(c)) && c in s.chans
    && t !in s.chans[c].recvq && t !in s.chans[c].delivered
  }

  /** The k-th action closes `c` while `t` is parked in its `recvq`; no value is left then. */
  ghost predicate ClosedOnReceiver<T>(s: Sys<T>, acts: seq<Action<T>>, k: nat, c: ChanId, t: TaskId) {
    && ClosesAt(s, acts, k, c)
    && var ch := Exec(s, acts[..k]).chans[c];
       t in ch.recvq && Queued(ch) == [] && ch.sent == Vals(ch.handed)
  }

  lemma LeavesEmptyHanded<T>(s: Sys<T>, a: Action<T>, c: ChanId, t: TaskId)
    requires Enabled(s, a) && LeftEmptyHanded(Apply(s, a), c, t)
    requires WaitsFor(s, t, OnRecv(c)) ==> c in s.chans
    ensures LeftEmptyHanded(s, c, t) || (Closes(s, a, c) && t in s.chans[c].recvq)
  {
    if a.Send? && a.c == c {
      SendServes(s, a.t, c, a.v, t);
    } else if a.Recv? && a.c == c {
      RecvServes(s, a.t, c, t);
    } else if !(a.Close? && a.c == c) {
      StaysEmptyHanded(s, a, c, t);
    }
  }

  lemma SendServes<T>(s: Sys<T>, me: TaskId, c: ChanId, v: T, t: TaskId)
    requires Enabled(s, Action.Send(me, c, v)) && LeftEmptyHanded(Apply(s, Action.Send(me, c, v)), c, t)
    ensures LeftEmptyHanded(s, c, t)
  {
    var q := s.chans[c].recvq;
    if q != [] {
      assert q == [q[0]] + q[1..];
    }
  }

  lemma RecvServes<T>(s: Sys<T>, me: TaskId, c: ChanId, t: TaskId)
    requires Enabled(s, Action.Recv(me, c)) && LeftEmptyHanded(Apply(s, Action.Recv(me, c)), c, t)
    ensures LeftEmptyHanded(s, c, t)
  {
  }

  lemma StaysEmptyHanded<T>(s: Sys<T>, a: Action<T>, c: ChanId, t: TaskId)
    requires Enabled(s, a) && !((a.Send? || a.Recv? || a.Close?) && a.c == c)
    requires LeftEmptyHanded(Apply(s, a), c, t) && (WaitsFor(s, t, OnRecv(c)) ==> c in s.chans)
    ensures LeftEmptyHanded(s, c, t)
  {
  }

  lemma RecvqMeansEmpty<T>(ch: ChanState<T>, t: TaskId)
    requires ChanInv(ch) && t in ch.recvq
    ensures Queued(ch) == [] && ch.sent == Vals(ch.handed) && t !in ch.delivered
  {
    assert ch.sent == Vals(ch.handed) + [] + [];
  }

  lemma {:induction false} EmptyHandedByClose<T>(s: Sys<T>, acts: seq<Action<T>>, c: ChanId, t: TaskId)
    requires Inv(s) && Run(s, acts) && !LeftEmptyHanded(s, c, t) && LeftEmptyHanded(Exec(s, acts), c, t)
    ensures exists k: nat :: ClosedOnReceiver(s, acts, k, c, t)
  {
    var m := |acts| - 1;
    var r := Exec(s, acts[..m]);
    RunKeepsInv(s, acts[..m]);
    assert t in r.pc ==> TaskOk(r, t);
    LeavesEmptyHanded(r, acts[m], c, t);
    if LeftEmptyHanded(r, c, t) {
      EmptyHandedByClose(s, acts[..m], c, t);
      var k: nat :| ClosedOnReceiver(s, acts[..m], k, c, t);
      ClosesAtLater(s, acts, m, k, c);
      assert ClosedOnReceiver(s, acts, k, c, t);
    } else {
      assert ChanOk(r, c);
      RecvqMeansEmpty(r.chans[c], t);
      assert ClosedOnReceiver(s, acts, m, c, t);
    }
  }

  lemma ClosedOnReceiverGetsNothing<T>(s: Sys<T>, acts: seq<Action<T>>, k: nat, c: ChanId, t: TaskId)
    requires Inv(s) && Run(s, acts) && ClosedOnReceiver(s, acts, k, c, t)
    ensures c in Exec(s, acts).chans && t !in Exec(s, acts).chans[c].delivered
  {
    RunKeepsInv(s, acts[..k]);
    assert ChanOk(Exec(s, acts[..k]), c);
    RecvqMeansEmpty(Exec(s, acts[..k]).chans[c], t);
    SinceClose(s, acts, k, c);
  }

  /** A parked `recv` returns `None` exactly if a `close` found its caller in the queue, and
      then the channel was empty at that `close`: every value sent had been handed over. */
  lemma ParkedRecvNoneIff<T>(n: nat, caps: map<ChanId, nat>, acts: seq<Action<T>>, t: TaskId, c: ChanId)
    requires Run(Init(n, caps), acts)
    requires Enabled(Exec(Init(n, caps), acts), Continue(t))
    requires Exec(Init(n, caps), acts).pc[t] == Resume(OnRecv(c))
    ensures EventOf(Exec(Init(n, caps), acts), Continue(t)) == RecvReturns(c, t, None)
       <==> exists k: nat :: ClosedOnReceiver(Init(n, caps), acts, k, c, t)
  {
    var s0, s := Init<T>(n, caps), Exec(Init(n, caps), acts);
    InitInv<T>(n, caps);
    RunKeepsInv(s0, acts);
    assert TaskOk(s, t) && t !in s.park.reg;
    if k: nat :| ClosedOnReceiver(s0, acts, k, c, t) {
      ClosedOnReceiverGetsNothing(s0, acts, k, c, t);
    } else if t !in s.chans[c].delivered {
      EmptyHandedByClose(s0, acts, c, t);
    }
  }

  // ---- Parked senders ------------------------------------------------------------------------

  /** The n-th value sent is among those that `close` threw away. */
  ghost predicate Discarded<T>(ch: ChanState<T>, n: nat) {
    var i := n - |ch.handed| - |Queued(ch)|;
    0 <= i < |ch.lost| && n < |ch.sent| && ch.lost[i] == ch.sent[n]
  }

  lemma WhereTheValueIs<T>(ch: ChanState<T>, n: nat)
    requires ChanInv(ch) && n < |ch.sent|
    ensures Placed(ch, n) <==> GotThrough(ch, n)
    ensures ch.closed ==> (Discarded(ch, n) <==> !Placed(ch, n))
    ensures !ch.closed ==> !Discarded(ch, n)
  {
    Theorems.PlacedGotThrough(ch, n);
    var all := Vals(ch.handed) + Queued(ch);
    assert ch.sent == all + ch.lost;
    assert n >= |all| ==> ch.sent[n] == ch.lost[n - |all|];
  }

  lemma NumberStep<T>(s: Sys<T>, a: Action<T>, c: ChanId, n: nat, x: TaskId)
    requires Enabled(s, a) && WaitsFor(Apply(s, a), x, OnSend(c, n))
    requires WaitsFor(s, x, OnSend(c, n)) ==> c in s.chans && n < |s.chans[c].sent|
    ensures c in Apply(s, a).chans && n < |Apply(s, a).chans[c].sent|
  {
    if a.Send? && a.c == c {
      SendOn(s, a.t, c, a.v);
      SendNumbers(s, a.t, c, a.v, n, x);
    } else {
      NumberStays(s, a, c, n, x);
    }
  }

  lemma SendNumbers<T>(s: Sys<T>, t: TaskId, c: ChanId, v: T, n: nat, x: TaskId)
    requires Enabled(s, Action.Send(t, c, v)) && WaitsFor(Apply(s, Action.Send(t, c, v)), x, OnSend(c, n))
    ensures WaitsFor(s, x, OnSend(c, n)) || (SendLock(s.chans[c], t, v).1.SendParks? && n == |s.chans[c].sent|)
  {
  }

  lemma NumberStays<T>(s: Sys<T>, a: Action<T>, c: ChanId, n: nat, x: TaskId)
    requires Enabled(s, a) && !(a.Send? && a.c == c) && WaitsFor(Apply(s, a), x, OnSend(c, n))
    ensures WaitsFor(s, x, OnSend(c, n))
    ensures c in s.chans ==> c in Apply(s, a).chans && Apply(s, a).chans[c].sent == s.chans[c].sent
  {
  }

  /** A parked sender's position is one of a value sent. */
  lemma {:induction false} SendIsNumbered<T>(
    n: nat, caps: map<ChanId, nat>, acts: seq<Action<T>>, x: TaskId, c: ChanId, pos: nat)
    requires Run(Init(n, caps), acts) && WaitsFor(Exec(Init(n, caps), acts), x, OnSend(c, pos))
    ensures var s := Exec(Init(n, caps), acts); c in s.chans && pos < |s.chans[c].sent|
  {
    if acts != [] {
      var m := |acts| - 1;
      if WaitsFor(Exec(Init(n, caps), acts[..m]), x, OnSend(c, pos)) {
        SendIsNumbered(n, caps, acts[..m], x, c, pos);
      }
      NumberStep(Exec(Init(n, caps), acts[..m]), acts[m], c, pos, x);
    }
  }

  /** What the end of a parked `send` says about its value.  It panics exactly when the
      channel is closed by then.  If it returns, the value got through.  That it panics
      exactly when its value was discarded fails in one case only: the channel is closed,
      and the value got through. */
  lemma ParkedSendOutcome<T>(
    n: nat, caps: map<ChanId, nat>, acts: seq<Action<T>>, t: TaskId, c: ChanId, pos: nat)
    requires Run(Init(n, caps), acts)
    requires Enabled(Exec(Init(n, caps), acts), Continue(t))
    requires Exec(Init(n, caps), acts).pc[t] == Resume(OnSend(c, pos))
    ensures var s := Exec(Init(n, caps), acts); var (ch, e) := (s.chans[c], EventOf(s, Continue(t)));
      && (e == Panics || e == SendReturns(c, pos)) && (e == Panics <==> ch.closed)
      && (e == SendReturns(c, pos) ==> GotThrough(ch, pos))
      && (ch.closed ==> (Discarded(ch, pos) <==> !GotThrough(ch, pos)))
      && ((e == Panics <==> Discarded(ch, pos)) <==> !(ch.closed && GotThrough(ch, pos)))
      && (Placed(ch, pos) <==> GotThrough(ch, pos))
  {
    var s := Exec(Init(n, caps), acts);
    InitInv<T>(n, caps);
    RunKeepsInv(Init<T>(n, caps), acts);
    assert TaskOk(s, t) && t !in s.park.reg && ChanOk(s, c);
    SendIsNumbered(n, caps, acts, t, c, pos);
    WhereTheValueIs(s.chans[c], pos);
  }

  /** The k-th action closes `c` while `x` waits to send its value there. */
  ghost predicate ClosedOnSender<T>(
    s: Sys<T>, acts: seq<Action<T>>, k: nat, c: ChanId, x: TaskId, pos: nat)
  {
    ClosesAt(s, acts, k, c) && WaitsFor(Exec(s, acts[..k]), x, OnSend(c, pos))
  }

  /** The same, and the value had been taken or buffered by then. */
  ghost predicate ClosedOnServedSender<T>(
    s: Sys<T>, acts: seq<Action<T>>, k: nat, c: ChanId, x: TaskId, pos: nat)
  {
    ClosedOnSender(s, acts, k, c, x, pos) && Placed(Exec(s, acts[..k]).chans[c], pos)
  }

  /** Nobody starts waiting to send on a closed channel. */
  lemma WaitedBefore<T>(s: Sys<T>, a: Action<T>, c: ChanId, x: TaskId, pos: nat)
    requires Enabled(s, a) && c in Apply(s, a).chans && Apply(s, a).chans[c].closed
    requires WaitsFor(Apply(s, a), x, OnSend(c, pos))
    ensures WaitsFor(s, x, OnSend(c, pos))
    ensures c in s.chans && (s.chans[c].closed || Closes(s, a, c))
  {
  }

  lemma {:induction false} WaitedAtClose<T>(
    s: Sys<T>, acts: seq<Action<T>>, c: ChanId, x: TaskId, pos: nat)
    requires Run(s, acts) && WaitsFor(Exec(s, acts), x, OnSend(c, pos))
    requires c in Exec(s, acts).chans && Exec(s, acts).chans[c].closed
    requires c in s.chans ==> !s.chans[c].closed
    ensures exists k: nat :: ClosedOnSender(s, acts, k, c, x, pos)
  {
    var m := |acts| - 1;
    var r := Exec(s, acts[..m]);
    WaitedBefore(r, acts[m], c, x, pos);
    if r.chans[c].closed {
      WaitedAtClose(s, acts[..m], c, x, pos);
      var k: nat :| ClosedOnSender(s, acts[..m], k, c, x, pos);
      ClosesAtLater(s, acts, m, k, c);
      assert ClosedOnSender(s, acts, k, c, x, pos);
    } else {
      assert ClosedOnSender(s, acts, m, c, x, pos);
    }
  }

  /** The exceptional case, decided when `close` is called: a parked `send` panics for a
      value that got through exactly if the channel was closed while it was still waiting
      with its value already taken or buffered. */
  lemma PanicsThoughServedIff<T>(
    n: nat, caps: map<ChanId, nat>, acts: seq<Action<T>>, x: TaskId, c: ChanId, pos: nat)
    requires Run(Init(n, caps), acts)
    requires Enabled(Exec(Init(n, caps), acts), Continue(x))
    requires Exec(Init(n, caps), acts).pc[x] == Resume(OnSend(c, pos))
    ensures var s := Exec(Init(n, caps), acts);
      EventOf(s, Continue(x)) == Panics && GotThrough(s.chans[c], pos)
      <==> exists k: nat :: ClosedOnServedSender(Init(n, caps), acts, k, c, x, pos)
  {
    ParkedSendOutcome(n, caps, acts, x, c, pos);
    InitInv<T>(n, caps);
    ServedAtCloseIff(Init(n, caps), acts, x, c, pos);
  }

  lemma ServedAtCloseIff<T>(s: Sys<T>, acts: seq<Action<T>>, x: TaskId, c: ChanId, pos: nat)
    requires Inv(s) && Run(s, acts) && WaitsFor(Exec(s, acts), x, OnSend(c, pos))
    requires c in Exec(s, acts).chans && (c in s.chans ==> !s.chans[c].closed)
    ensures Exec(s, acts).chans[c].closed && Placed(Exec(s, acts).chans[c], pos)
       <==> exists k: nat :: ClosedOnServedSender(s, acts, k, c, x, pos)
  {
    if k: nat :| ClosedOnServedSender(s, acts, k, c, x, pos) {
      SinceClose(s, acts, k, c);
    } else if Exec(s, acts).chans[c].closed {
      WaitedAtClose(s, acts, c, x, pos);
      var k: nat :| ClosedOnSender(s, acts, k, c, x, pos);
      SinceClose(s, acts, k, c);
      assert !ClosedOnServedSender(s, acts, k, c, x, pos);
    }
  }

  lemma WaitStep<T>(s: Sys<T>, a: Action<T>, x: TaskId, k: Wait)
    requires Enabled(s, a) && WaitsFor(s, x, k) && a != Continue(x)
    requires x < s.park.next
    ensures WaitsFor(Apply(s, a), x, k)
  {
  }

  lemma {:induction false} StillWaits<T>(s: Sys<T>, acts: seq<Action<T>>, x: TaskId, k: Wait)
    requires Inv(s) && Run(s, acts) && WaitsFor(s, x, k) && Continue(x) !in acts
    ensures WaitsFor(Exec(s, acts), x, k)
  {
    if acts != [] {
      var m := |acts| - 1;
      StillWaits(s, acts[..m], x, k);
      RunKeepsInv(s, acts[..m]);
      WaitStep(Exec(s, acts[..m]), acts[m], x, k);
    }
  }

  /** Whoever waits to send when the channel is closed will panic, whatever happens until it
      resumes; and whether its value is lost is settled at the `close`. */
  lemma CloseDoomsSenders<T>(s: Sys<T>, acts: seq<Action<T>>, c: ChanId, x: TaskId, pos: nat)
    requires Inv(s) && Run(s, acts) && ClosesAt(s, acts, 0, c)
    requires WaitsFor(s, x, OnSend(c, pos)) && Continue(x) !in acts
    ensures var s' := Exec(s, acts);
      && WaitsFor(s', x, OnSend(c, pos)) && c in s'.chans
      && (Placed(s'.chans[c], pos) <==> Placed(s.chans[c], pos))
      && (Enabled(s', Continue(x)) ==> EventOf(s', Continue(x)) == Panics)
  {
    assert acts[..0] == [];
    StillWaits(s, acts, x, OnSend(c, pos));
    SinceClose(s, acts, 0, c);
    PanicsOnClosed(Exec(s, acts), c, x, pos);
  }

  lemma PanicsOnClosed<T>(s: Sys<T>, c: ChanId, x: TaskId, pos: nat)
    requires WaitsFor(s, x, OnSend(c, pos)) && c in s.chans && s.chans[c].closed
    ensures Enabled(s, Continue(x)) ==> EventOf(s, Continue(x)) == Panics
  {
  }

  // ---- A run refines an atomic queue ----------------------------------------------------------

  /** What an action does to the queue that channel `c` implements. */
  function OpsOf<T(==)>(s: Sys<T>, a: Action<T>, c: ChanId): seq<QueueOp<T>>
    requires Enabled(s, a)
  {
    match a
    case Send(t, d, v) => if d == c then SendOps(SendLock(s.chans[c], t, v).1, v) else []
    case Recv(t, d) => if d == c then RecvOps(RecvLock(s.chans[c], t).1) else []
    case Close(_, d) => if Closes(s, a, c) then [Shut(|s.chans[c].sendq|)] else []
    case _ => []
  }

  ghost function Ops<T>(s: Sys<T>, acts: seq<Action<T>>, c: ChanId): seq<QueueOp<T>>
    requires Run(s, acts)
  {
    if acts == [] then []
    else Ops(s, acts[..|acts| - 1], c) + OpsOf(Exec(s, acts[..|acts| - 1]), acts[|acts| - 1], c)
  }

  /** The action is none of `send`, `recv` or `close` on `c`: the queue stays as it is. */
  lemma Invisible<T>(s: Sys<T>, a: Action<T>, c: ChanId)
    requires Enabled(s, a) && c in s.chans
    requires !((a.Send? || a.Recv? || a.Close?) && a.c == c)
    ensures OpsOf(s, a, c) == [] && c in Apply(s, a).chans
    ensures var (ch, ch') := (s.chans[c], Apply(s, a).chans[c]);
      && ch'.buf == ch.buf && ch'.sendq == ch.sendq && ch'.closed == ch.closed
      && ch'.sent == ch.sent && ch'.handed == ch.handed
  {
  }

  /** What `send`, `recv` and `close` make of their own channel. */
  lemma SendOn<T>(s: Sys<T>, t: TaskId, c: ChanId, v: T)
    requires Enabled(s, Action.Send(t, c, v))
    ensures c in Apply(s, Action.Send(t, c, v)).chans
    ensures Apply(s, Action.Send(t, c, v)).chans[c] == SendLock(s.chans[c], t, v).0
  {
  }

  lemma RecvOn<T>(s: Sys<T>, t: TaskId, c: ChanId)
    requires Enabled(s, Action.Recv(t, c)) && !RecvLock(s.chans[c], t).1.RecvPanics?
    ensures c in Apply(s, Action.Recv(t, c)).chans
    ensures Apply(s, Action.Recv(t, c)).chans[c] == RecvLock(s.chans[c], t).0
  {
  }

  lemma CloseOn<T>(s: Sys<T>, t: TaskId, c: ChanId)
    requires Enabled(s, Action.Close(t, c))
    ensures c in Apply(s, Action.Close(t, c)).chans
    ensures Apply(s, Action.Close(t, c)).chans[c] == CloseLock(s.chans[c]).0
  {
  }

  lemma OpsStep<T>(s: Sys<T>, a: Action<T>, c: ChanId, ops: seq<QueueOp<T>>)
    requires Inv(s) && Enabled(s, a) && c in s.chans && AmountsTo(ops, s.chans[c])
    ensures c in Apply(s, a).chans && AmountsTo(ops + OpsOf(s, a, c), Apply(s, a).chans[c])
  {
    assert ChanOk(s, c) && ops + [] == ops;
    if !((a.Send? || a.Recv? || a.Close?) && a.c == c) {
      Invisible(s, a, c);
    } else if a.Send? {
      SendOn(s, a.t, c, a.v);
      SendAmounts(ops, s.chans[c], a.t, a.v);
    } else if a.Recv? {
      UserIsUnbound(s, a.t);
      RecvKeepsInv(s.chans[c], a.t);
      RecvOn(s, a.t, c);
      RecvAmounts(ops, s.chans[c], a.t);
    } else {
      CloseOn(s, a.t, c);
      if !s.chans[c].closed {
        CloseAmounts(ops, s.chans[c]);
      }
    }
  }

  lemma NewQueue<T>(s: Sys<T>, a: Action<T>, c: ChanId)
    requires Enabled(s, a) && c !in s.chans
    ensures OpsOf(s, a, c) == []
    ensures c in Apply(s, a).chans ==> AmountsTo([], Apply(s, a).chans[c])
  {
    if c in Apply(s, a).chans {
      assert a.NewChan? && Apply(s, a).chans[c] == WithCapacity(a.cap);
      NewAmounts<T>(a.cap);
    }
  }

  lemma NewAmounts<T>(cap: nat)
    ensures AmountsTo([], WithCapacity<T>(cap))
  {
    assert Queued(WithCapacity<T>(cap)) == [];
  }

  /** Every run, seen at one channel, is a legal sequence of operations of an atomic queue:
      it puts in the values sent and takes out the values handed over, in order, and ends
      in the queue that the channel represents. */
  lemma {:induction false} RunRefinesQueue<T>(n: nat, caps: map<ChanId, nat>, acts: seq<Action<T>>, c: ChanId)
    requires Run(Init(n, caps), acts)
    ensures var (s, ops) := (Exec(Init(n, caps), acts), Ops(Init(n, caps), acts, c));
      if c in s.chans then AmountsTo(ops, s.chans[c]) else ops == []
  {
    var s0 := Init<T>(n, caps);
    if acts == [] {
      if c in caps {
        assert s0.chans[c] == WithCapacity(caps[c]);
        NewAmounts<T>(caps[c]);
      }
    } else {
      var m := |acts| - 1;
      var r := Exec(s0, acts[..m]);
      RunRefinesQueue(n, caps, acts[..m], c);
      InitInv<T>(n, caps);
      RunKeepsInv(s0, acts[..m]);
      if c in r.chans {
        OpsStep(r, acts[m], c, Ops(s0, acts[..m], c));
      } else {
        NewQueue(r, acts[m], c);
      }
    }
  }

  // ---- The wakeups of close -------------------------------------------------------------------

  /** Whom `t` wakes along a run, in order. */
  ghost function WokenBy<T>(s: Sys<T>, acts: seq<Action<T>>, t: TaskId): seq<TaskId>
    requires Run(s, acts)
  {
    if acts == [] then []
    else
      var (before, r) := (WokenBy(s, acts[..|acts| - 1], t), Exec(s, acts[..|acts| - 1]));
      if acts[|acts| - 1] == WakeNext(t) then before + [r.pc[t].list[0]] else before
  }

  lemma WakingStep<T>(s: Sys<T>, a: Action<T>, t: TaskId)
    requires Enabled(s, a) && t in s.pc && t < s.park.next && s.pc[t].Waking? && s.pc[t].list != []
    ensures t in Apply(s, a).pc
    ensures Apply(s, a).pc[t] == if a == WakeNext(t) then WakingPc(s.pc[t].list[1..], s.pc[t].after) else s.pc[t]
  {
    if a.t != t || a.TimerWake? {
      OthersPcStays(s, a, t);
    }
  }

  lemma OthersPcStays<T>(s: Sys<T>, a: Action<T>, x: TaskId)
    requires Enabled(s, a) && x in s.pc && x < s.park.next && (a.t != x || a.TimerWake?)
    ensures x in Apply(s, a).pc && Apply(s, a).pc[x] == s.pc[x]
  {
  }

  /** Of the waiters `wake` that `t` found when it closed a channel, it has woken `done`. */
  ghost predicate Waking<T>(s: Sys<T>, t: TaskId, wake: seq<TaskId>, done: seq<TaskId>) {
    if |done| < |wake|
    then done <= wake && t in s.pc && s.pc[t] == Pc.Waking(wake[|done|..], CloseDone)
    else wake <= done
  }

  lemma WakingGoesOn<T>(s: Sys<T>, a: Action<T>, t: TaskId, wake: seq<TaskId>, done: seq<TaskId>)
    requires Inv(s) && Enabled(s, a) && Waking(s, t, wake, done)
    ensures Waking(Apply(s, a), t, wake, if a == WakeNext(t) then done + [s.pc[t].list[0]] else done)
  {
    if |done| < |wake| {
      WakingStep(s, a, t);
      OneMore(wake, done);
    }
  }

  lemma OneMore(wake: seq<TaskId>, done: seq<TaskId>)
    requires |done| < |wake| && done <= wake
    ensures var more := done + [wake[|done|..][0]];
      more <= wake && (|more| == |wake| ==> more == wake) && wake[|done|..][1..] == wake[|more|..]
  {
  }

  /** The two loops of `close`: along every run after it, the closing task's wakeups are
      just those it found waiting, each once, receivers before senders, in queue order; it
      does nothing else until it has made them all. */
  lemma {:induction false} CloserWakesAll<T>(s: Sys<T>, acts: seq<Action<T>>, t: TaskId, c: ChanId)
    requires Inv(s) && Enabled(s, Action.Close(t, c)) && !s.chans[c].closed
    requires Run(Apply(s, Action.Close(t, c)), acts)
    ensures var (s1, wake) := (Apply(s, Action.Close(t, c)), s.chans[c].recvq + Ids(s.chans[c].sendq));
      NoDup(wake) && Waking(Exec(s1, acts), t, wake, WokenBy(s1, acts, t))
  {
    var (s1, wake) := (Apply(s, Action.Close(t, c)), s.chans[c].recvq + Ids(s.chans[c].sendq));
    assert ChanOk(s, c);
    CloseRefines(s.chans[c]);
    if acts == [] {
      assert wake[0..] == wake;
    } else {
      var m := |acts| - 1;
      CloserWakesAll(s, acts[..m], t, c);
      StepKeepsInv(s, Action.Close(t, c));
      RunKeepsInv(s1, acts[..m]);
      WakingGoesOn(Exec(s1, acts[..m]), acts[m], t, wake, WokenBy(s1, acts[..m], t));
    }
  }

  // ---- The send that returns ------------------------------------------------------------------

  /** A call of `send`: the channel, the position of the value in `sent`, and the value. */
  datatype Call<T> = Call(c: ChanId, pos: nat, v: T)

  /** The last call of `send` that task `t` made. */
  ghost function LastSend<T>(s: Sys<T>, acts: seq<Action<T>>, t: TaskId): Option<Call<T>>
    requires Run(s, acts)
  {
    if acts == [] then None
    else
      var (r, a) := (Exec(s, acts[..|acts| - 1]), acts[|acts| - 1]);
      if a.Send? && a.t == t then Some(Call(a.c, |r.chans[a.c].sent|, a.v)) else LastSend(s, acts[..|acts| - 1], t)
  }

  /** Task `t` is in the middle of a `send` to `c` whose value has position `pos`. */
  predicate Sending<T(==)>(s: Sys<T>, t: TaskId, c: ChanId, pos: nat) {
    || WaitsFor(s, t, OnSend(c, pos))
    || (t in s.pc && s.pc[t].Waking? && s.pc[t].after == SendDone(c, pos))
  }

  ghost predicate Holds<T>(s: Sys<T>, call: Call<T>) {
    && call.c in s.chans && call.pos < |s.chans[call.c].sent| && s.chans[call.c].sent[call.pos] == call.v
  }

  lemma HoldsOn<T>(s: Sys<T>, a: Action<T>, call: Call<T>)
    requires Enabled(s, a) && Holds(s, call)
    ensures Holds(Apply(s, a), call)
  {
  }

  lemma SendingStep<T>(s: Sys<T>, a: Action<T>, t: TaskId, c: ChanId, pos: nat)
    requires Enabled(s, a) && Sending(Apply(s, a), t, c, pos) && !(a.Send? && a.t == t)
    ensures Sending(s, t, c, pos)
  {
  }

  lemma SendingStarts<T>(s: Sys<T>, t: TaskId, d: ChanId, v: T, c: ChanId, pos: nat)
    requires Enabled(s, Action.Send(t, d, v)) && Sending(Apply(s, Action.Send(t, d, v)), t, c, pos)
    ensures c == d && pos == |s.chans[d].sent| && Holds(Apply(s, Action.Send(t, d, v)), Call(c, pos, v))
  {
  }

  lemma {:induction false} SendingItsCall<T>(
    n: nat, caps: map<ChanId, nat>, acts: seq<Action<T>>, t: TaskId, c: ChanId, pos: nat)
    requires Run(Init(n, caps), acts) && Sending(Exec(Init(n, caps), acts), t, c, pos)
    ensures var (s, call) := (Exec(Init(n, caps), acts), LastSend(Init(n, caps), acts, t));
      call.Some? && call.value.c == c && call.value.pos == pos && Holds(s, call.value)
  {
    if acts != [] {
      var m := |acts| - 1;
      var r := Exec(Init<T>(n, caps), acts[..m]);
      var a := acts[m];
      if a.Send? && a.t == t {
        SendingStarts(r, t, a.c, a.v, c, pos);
      } else {
        SendingStep(r, a, t, c, pos);
        SendingItsCall(n, caps, acts[..m], t, c, pos);
        HoldsOn(r, a, LastSend(Init(n, caps), acts[..m], t).value);
      }
    }
  }

  lemma ReturnIsOfCall<T>(s: Sys<T>, a: Action<T>, c: ChanId, pos: nat)
    requires Enabled(s, a) && EventOf(s, a) == SendReturns(c, pos)
    ensures if a.Send? then a.c == c && pos == |s.chans[c].sent| && Holds(Apply(s, a), Call(c, pos, a.v))
            else Sending(s, a.t, c, pos)
  {
  }

  /** A `send` that returns does so for its own value: the one its task passed to its last
      call has been handed to a receiver, or is in the buffer, at the position it was
      given. */
  lemma SendReturnsItsOwn<T(!new)>(n: nat, caps: map<ChanId, nat>, acts: seq<Action<T>>, c: ChanId, pos: nat)
    requires acts != [] && Run(Init(n, caps), acts)
    requires EventOf(Exec(Init(n, caps), acts[..|acts| - 1]), acts[|acts| - 1]) == SendReturns(c, pos)
    ensures c in Exec(Init(n, caps), acts).chans
    ensures var ch := Exec(Init(n, caps), acts).chans[c];
      var call := LastSend(Init(n, caps), acts, acts[|acts| - 1].t);
      && call.Some? && call.value.c == c && call.value.pos == pos
      && GotThrough(ch, pos) && ch.sent[pos] == call.value.v
  {
    var m := |acts| - 1;
    var (s, a) := (Exec(Init<T>(n, caps), acts[..m]), acts[m]);
    assert Reaches(s, n, caps, acts[..m]);
    Theorems.SendReturnsInTime(s, a, c, pos);
    ReturnIsOfCall(s, a, c, pos);
    if !a.Send? {
      SendingItsCall(n, caps, acts[..m], a.t, c, pos);
      HoldsOn(s, a, LastSend(Init(n, caps), acts[..m], a.t).value);
    }
  }

  // ---- The capacity asked for -----------------------------------------------------------------

  /** Channel `c` was asked for with capacity `cap`: before the start, or by `with_capacity`
      at some step of the run. */
  ghost predicate AskedFor<T>(caps: map<ChanId, nat>, acts: seq<Action<T>>, c: ChanId, cap: nat) {
    (c in caps && caps[c] == cap) || exists t :: NewChan(t, c, cap) in acts
  }

  lemma CapacityStep<T>(s: Sys<T>, a: Action<T>, c: ChanId)
    requires Enabled(s, a)
    ensures c in s.chans ==> c in Apply(s, a).chans && Apply(s, a).chans[c].cap == s.chans[c].cap
    ensures a.NewChan? && a.c == c ==> c in Apply(s, a).chans && Apply(s, a).chans[c].cap == a.cap
  {
  }

  /** A channel has the capacity asked for, in every state of every run. */
  lemma {:induction false} CapacityIsAsAsked<T>(
    n: nat, caps: map<ChanId, nat>, acts: seq<Action<T>>, c: ChanId, cap: nat)
    requires Run(Init(n, caps), acts) && AskedFor(caps, acts, c, cap)
    ensures var s := Exec(Init(n, caps), acts); c in s.chans && s.chans[c].cap == cap
  {
    if acts != [] {
      var m := |acts| - 1;
      CapacityStep(Exec(Init(n, caps), acts[..m]), acts[m], c);
      if AskedFor(caps, acts[..m], c, cap) {
        CapacityIsAsAsked(n, caps, acts[..m], c, cap);
      } else {
        var t :| NewChan(t, c, cap) in acts;
        assert acts == acts[..m] + [acts[m]];
        assert acts[m] == NewChan(t, c, cap);
      }
    }
  }

  /** Capacity and rendezvous in terms of the capacity asked for: no more values than that
      are buffered; a parked sender faces just so many; and the send at position `pos`
      returns only when at least `pos + 1 - cap` values have been handed over, its own among
      them if `cap` is 0. */
  lemma CapacityBounds<T(!new)>(
    n: nat, caps: map<ChanId, nat>, acts: seq<Action<T>>, a: Action<T>, c: ChanId, cap: nat)
    requires Run(Init(n, caps), acts) && AskedFor(caps, acts, c, cap)
    requires Enabled(Exec(Init(n, caps), acts), a)
    ensures c in Exec(Init(n, caps), acts).chans && BoundedBy(Exec(Init(n, caps), acts), a, c, cap)
  {
    var s := Exec(Init<T>(n, caps), acts);
    assert Reaches(s, n, caps, acts);
    CapacityIsAsAsked(n, caps, acts, c, cap);
    BoundedByOwn(s, a, c);
  }

  ghost predicate BoundedBy<T>(s: Sys<T>, a: Action<T>, c: ChanId, cap: nat)
    requires Enabled(s, a) && c in s.chans
  {
    && |s.chans[c].buf| <= cap && (s.chans[c].sendq != [] ==> |s.chans[c].buf| == cap)
    && c in Apply(s, a).chans
    && (forall pos: nat :: EventOf(s, a) == SendReturns(c, pos) ==>
          var handed := Apply(s, a).chans[c].handed;
          pos + 1 <= |handed| + cap && (cap == 0 ==> pos < |handed|))
  }

  lemma BoundedByOwn<T(!new)>(s: Sys<T>, a: Action<T>, c: ChanId)
    requires Reachable(s) && Enabled(s, a) && c in s.chans
    ensures BoundedBy(s, a, c, s.chans[c].cap)
  {
    CapacityStep(s, a, c);
    Theorems.ChannelIsFifo(s, c);
    forall pos: nat | EventOf(s, a) == SendReturns(c, pos)
      ensures var ch := Apply(s, a).chans[c];
        pos + 1 <= |ch.handed| + ch.cap && (ch.cap == 0 ==> pos < |ch.handed|)
    {
      Theorems.SendReturnsInTime(s, a, c, pos);
    }
  }

  /** On an open channel without parked receivers, `send` returns at once exactly if fewer
      values are buffered than the capacity asked for; otherwise it parks. */
  lemma SendReturnsAtOnceIff<T>(
    n: nat, caps: map<ChanId, nat>, acts: seq<Action<T>>, t: TaskId, c: ChanId, v: T, cap: nat)
    requires Run(Init(n, caps), acts) && AskedFor(caps, acts, c, cap)
    requires Enabled(Exec(Init(n, caps), acts), Action.Send(t, c, v))
    requires var ch := Exec(Init(n, caps), acts).chans[c]; !ch.closed && ch.recvq == []
    ensures var (s, a) := (Exec(Init(n, caps), acts), Action.Send(t, c, v));
      && (EventOf(s, a) == SendReturns(c, |s.chans[c].sent|) <==> |s.chans[c].buf| < cap)
      && (|s.chans[c].buf| >= cap ==> WaitsFor(Apply(s, a), t, OnSend(c, |s.chans[c].sent|)))
  {
    CapacityIsAsAsked(n, caps, acts, c, cap);
  }
}
