/** What the channels of channel.rs guarantee, over every run and every interleaving. */
module ChannelTheorems {
  import opened Common
  import PW = ParkWake
  import opened Channel
  import opened ChannelSystem
  import opened ChannelInvariant

  // ---- Order and conservation of values -------------------------------------------------

  /** Every channel is a bounded FIFO whatever the interleaving: the values sent are, in
      order, those handed over, those buffered, those of the parked senders, and those
      `close` threw away.  Nothing is duplicated, reordered or invented. */
  lemma ChannelIsFifo<T(!new)>(s: Sys<T>, c: ChanId)
    requires Reachable(s) && c in s.chans
    ensures var ch := s.chans[c];
      && ch.sent == Vals(ch.handed) + ch.buf + Data(ch.sendq) + ch.lost
      && (!ch.closed ==> ch.lost == [])
      && |ch.buf| <= ch.cap
      && (ch.recvq != [] ==> ch.buf == [] && ch.sendq == [])
      && (ch.sendq != [] ==> |ch.buf| == ch.cap && !ch.closed)
      && NoDup(ch.recvq) && NoDup(Ids(ch.sendq))
  {
    ReachableInv(s);
    assert ChanOk(s, c);
    InFull(s.chans[c]);
  }

  lemma InFull<T>(ch: ChanState<T>)
    requires Fifo(ch)
    ensures ch.sent == Vals(ch.handed) + ch.buf + Data(ch.sendq) + ch.lost
  {
    assert Vals(ch.handed) + Queued(ch) == Vals(ch.handed) + ch.buf + Data(ch.sendq);
  }

  /** Direct delivery never overwrites a value its receiver has not collected. */
  lemma DeliveryNeverOverwrites<T(!new)>(s: Sys<T>, t: TaskId, c: ChanId, v: T, r: TaskId)
    requires Reachable(s) && Enabled(s, Action.Send(t, c, v))
    requires SendLock(s.chans[c], t, v).1 == Delivered(r)
    ensures r !in s.chans[c].delivered
  {
    ReachableInv(s);
    assert ChanOk(s, c);
    assert r in s.chans[c].recvq;
  }

  /** Each `recv` returns just what the channel handed to its caller, in order: once it
      has returned, everything handed to that task has been returned to it.  It returns
      `None` only from a closed channel in which nothing is left, and then nothing was
      handed to the caller in vain. */
  lemma RecvReturnsWhatWasHanded<T(!new)>(s: Sys<T>, a: Action<T>, c: ChanId, t: TaskId, r: Option<T>)
    requires Reachable(s) && Enabled(s, a) && EventOf(s, a) == RecvReturns(c, t, r)
    ensures c in s.chans && c in Apply(s, a).chans
    ensures var ch, ch' := s.chans[c], Apply(s, a).chans[c];
      && Proj(ch'.returned, t) == Proj(ch'.handed, t)
      && (r.Some? ==> ch'.returned == ch.returned + [(t, r.value)])
      && (r.None? ==> ch' == ch && ch.closed && Queued(ch) == [] && ch.sent == Vals(ch.handed) + ch.lost)
  {
    ReachableInv(s);
    StepKeepsInv(s, a);
    RecvReturnsOn(s, a, c, t, r);
    NothingOwed(Apply(s, a), c, t);
    if r.None? {
      ClosedAndEmpty(s, c);
    }
  }

  lemma NothingOwed<T>(s: Sys<T>, c: ChanId, t: TaskId)
    requires Inv(s) && c in s.chans && InHand(s, c, t) == []
    ensures Proj(s.chans[c].returned, t) == Proj(s.chans[c].handed, t)
  {
    assert ChanOk(s, c);
    assert Proj(s.chans[c].returned, t) + InHand(s, c, t) == Proj(s.chans[c].handed, t);
  }

  lemma ClosedAndEmpty<T>(s: Sys<T>, c: ChanId)
    requires Inv(s) && c in s.chans && Queued(s.chans[c]) == []
    ensures s.chans[c].sent == Vals(s.chans[c].handed) + s.chans[c].lost
  {
    assert ChanOk(s, c);
    assert s.chans[c].sent == Vals(s.chans[c].handed) + [] + s.chans[c].lost;
  }

  lemma RecvReturnsOn<T>(s: Sys<T>, a: Action<T>, c: ChanId, t: TaskId, r: Option<T>)
    requires Inv(s) && Enabled(s, a) && EventOf(s, a) == RecvReturns(c, t, r)
    ensures c in s.chans && c in Apply(s, a).chans
    ensures InHand(Apply(s, a), c, t) == []
    ensures r.Some? ==> Apply(s, a).chans[c].returned == s.chans[c].returned + [(t, r.value)]
    ensures r.None? ==> Apply(s, a).chans[c] == s.chans[c] && s.chans[c].closed && Queued(s.chans[c]) == []
  {
    assert TaskOk(s, t);
    ReturnsHow(s, a, c, t, r);
    if a == Action.Recv(t, c) {
      UserIsUnbound(s, t);
      RecvReturnsAtOnce(s, c, t, r);
    } else if a == WakeNext(t) {
      assert c in s.chans ==> ChanOk(s, c);
      TakerReturnsOn(s, c, t, r);
    } else {
      assert t !in s.park.reg;
      ResumeReturnsOn(s, c, t, r);
    }
  }

  lemma ReturnsHow<T>(s: Sys<T>, a: Action<T>, c: ChanId, t: TaskId, r: Option<T>)
    requires Enabled(s, a) && EventOf(s, a) == RecvReturns(c, t, r)
    ensures a == Action.Recv(t, c) || a == WakeNext(t) || (a == Continue(t) && s.pc[t] == Resume(OnRecv(c)))
  {
  }

  lemma RecvReturnsAtOnce<T>(s: Sys<T>, c: ChanId, t: TaskId, r: Option<T>)
    requires Enabled(s, Action.Recv(t, c)) && EventOf(s, Action.Recv(t, c)) == RecvReturns(c, t, r)
    requires Unbound(s, t)
    ensures var s' := Apply(s, Action.Recv(t, c));
      && c in s.chans && c in s'.chans && InHand(s', c, t) == []
      && (r.Some? ==> s'.chans[c].returned == s.chans[c].returned + [(t, r.value)])
      && (r.None? ==> s'.chans[c] == s.chans[c] && s.chans[c].closed && Queued(s.chans[c]) == [])
  {
    assert Data<T>([]) == [];
  }

  lemma TakerReturnsOn<T>(s: Sys<T>, c: ChanId, t: TaskId, r: Option<T>)
    requires Enabled(s, WakeNext(t)) && EventOf(s, WakeNext(t)) == RecvReturns(c, t, r)
    requires TaskOk(s, t) && (c in s.chans ==> QueuesOk(s, c))
    ensures var s' := Apply(s, WakeNext(t));
      && c in s.chans && c in s'.chans && InHand(s', c, t) == []
      && r.Some? && s'.chans[c].returned == s.chans[c].returned + [(t, r.value)]
  {
  }

  lemma ResumeReturnsOn<T>(s: Sys<T>, c: ChanId, t: TaskId, r: Option<T>)
    requires Enabled(s, Continue(t)) && EventOf(s, Continue(t)) == RecvReturns(c, t, r)
    requires t !in s.regAt && WaitOk(s, t, s.pc[t].k)
    ensures var s' := Apply(s, Continue(t));
      && c in s.chans && c in s'.chans && InHand(s', c, t) == []
      && (r.Some? ==> s'.chans[c].returned == s.chans[c].returned + [(t, r.value)])
      && (r.None? ==> s'.chans[c] == s.chans[c] && s.chans[c].closed && Queued(s.chans[c]) == [])
  {
  }

  /** Whatever was handed over has been returned or is held by a receiver that is about to
      return it: per receiver in order, and as multisets over all receivers. */
  lemma HandedIsReturnedOrHeld<T(!new)>(s: Sys<T>, c: ChanId, r: TaskId, v: T)
    requires Reachable(s) && c in s.chans
    ensures var ch := s.chans[c];
      && Proj(ch.returned, r) + InHand(s, c, r) == Proj(ch.handed, r)
      && multiset(ch.returned)[(r, v)] + multiset(InHand(s, c, r))[v] == multiset(ch.handed)[(r, v)]
  {
    ReachableInv(s);
    assert ChanOk(s, c);
    var ch := s.chans[c];
    ProjCount(ch.returned, r, v);
    ProjCount(ch.handed, r, v);
    assert multiset(Proj(ch.returned, r) + InHand(s, c, r)) == multiset(Proj(ch.handed, r));
  }

  // ---- Capacity and rendezvous ------------------------------------------------------------

  /** The n-th `send` (counting from 0 in lock order) returns only when its value has
      been handed over or is buffered; hence at least `n + 1 - cap` values have been
      handed over, and with capacity 0 its own value has.  In particular no send returns
      for a value that `close` discarded. */
  lemma SendReturnsInTime<T(!new)>(s: Sys<T>, a: Action<T>, c: ChanId, n: nat)
    requires Reachable(s) && Enabled(s, a) && EventOf(s, a) == SendReturns(c, n)
    ensures c in Apply(s, a).chans
    ensures var ch := Apply(s, a).chans[c];
      && GotThrough(ch, n)
      && n < |ch.sent| - |ch.lost|
      && n + 1 <= |ch.handed| + ch.cap
      && (ch.cap == 0 ==> n < |ch.handed|)
  {
    ReachableInv(s);
    StepKeepsInv(s, a);
    var s' := Apply(s, a);
    SendReturnsPlaced(s, a, c, n);
    assert ChanOk(s', c);
    PlacedGotThrough(s'.chans[c], n);
  }

  lemma PlacedGotThrough<T>(ch: ChanState<T>, n: nat)
    requires ChanInv(ch)
    ensures Placed(ch, n) <==> GotThrough(ch, n)
    ensures Placed(ch, n) ==> n < |ch.sent| - |ch.lost| && n + 1 <= |ch.handed| + ch.cap
  {
    if Placed(ch, n) {
      var h := Vals(ch.handed);
      assert ch.sent == h + (Queued(ch) + ch.lost);
      assert ch.sent[n] == if n < |h| then h[n] else Queued(ch)[n - |h|];
    }
  }

  lemma SendReturnsPlaced<T>(s: Sys<T>, a: Action<T>, c: ChanId, n: nat)
    requires Inv(s) && Enabled(s, a) && EventOf(s, a) == SendReturns(c, n)
    ensures c in Apply(s, a).chans && Placed(Apply(s, a).chans[c], n)
  {
    if a.Send? {
      assert ChanOk(s, c);
      var ch := s.chans[c];
      assert Data(ch.sendq) == [];
      assert |ch.sent| == |ch.handed| + |ch.buf|;
    } else {
      assert TaskOk(s, a.t) && a.t !in s.park.reg;
    }
  }

  /** Tasks 0 and 1 stand at the given points, and channel 0 is `ch`. */
  ghost predicate Stands(s: Sys<int>, pc0: Pc<int>, pc1: Pc<int>, ch: ChanState<int>) {
    && 0 in s.pc && 1 in s.pc && s.pc[0] == pc0 && s.pc[1] == pc1
    && 0 in s.chans && s.chans[0] == ch && !s.aborted
    && s.park.live == {0, 1} && s.park.pending == {} && s.park.waiting <= {0}
    && s.park.parking == (if pc0.Blocked? then {0} else {})
  }

  lemma SenderParks(s: Sys<int>, v: int)
    requires Stands(s, User, User, WithCapacity(0)) && s.park.waiting == {}
    ensures Enabled(s, Action.Send(0, 0, v))
    ensures Stands(Apply(s, Action.Send(0, 0, v)), Blocked(OnSend(0, 0)), User, SendLock(WithCapacity(0), 0, v).0)
  {
  }

  lemma SenderSettles(s: Sys<int>, ch: ChanState<int>)
    requires Stands(s, Blocked(OnSend(0, 0)), User, ch)
    ensures Enabled(s, Commit(0))
    ensures Stands(Apply(s, Commit(0)), Resume(OnSend(0, 0)), User, ch)
  {
  }

  lemma ReceiverTakes(s: Sys<int>, ch: ChanState<int>, v: int)
    requires Stands(s, Resume(OnSend(0, 0)), User, ch) && RecvLock(ch, 1).1 == FromSender(0, v)
    ensures Enabled(s, Action.Recv(1, 0))
    ensures Stands(Apply(s, Action.Recv(1, 0)), Resume(OnSend(0, 0)), Waking([0], RecvDone(0, v)), RecvLock(ch, 1).0)
  {
  }

  lemma ReceiverWakes(s: Sys<int>, ch: ChanState<int>, v: int)
    requires Stands(s, Resume(OnSend(0, 0)), Waking([0], RecvDone(0, v)), ch) && s.park.waiting == {0}
    ensures Enabled(s, WakeNext(1))
    ensures Stands(Apply(s, WakeNext(1)), Resume(OnSend(0, 0)), User, RecvReturn(ch, 1, v))
    ensures Apply(s, WakeNext(1)).park.waiting == {}
  {
  }

  lemma ReceiverCloses(s: Sys<int>, ch: ChanState<int>)
    requires Stands(s, Resume(OnSend(0, 0)), User, ch) && s.park.waiting == {}
    requires !ch.closed && ch.recvq == [] && ch.sendq == []
    ensures Enabled(s, Action.Close(1, 0)) && Enabled(Apply(s, Action.Close(1, 0)), Continue(0))
    ensures Apply(Apply(s, Action.Close(1, 0)), Continue(0)).aborted
    ensures Apply(Apply(s, Action.Close(1, 0)), Continue(0)).chans == s.chans[0 := CloseLock(ch).0]
  {
  }

  lemma ReachableStep<T(!new)>(s: Sys<T>, a: Action<T>)
    requires Reachable(s) && Enabled(s, a)
    ensures Reachable(Apply(s, a))
  {
    var n, caps, acts :| Reaches(s, n, caps, acts);
    assert (acts + [a])[..|acts|] == acts;
    assert Reaches(Apply(s, a), n, caps, acts + [a]);
  }

  lemma TwoTasks() returns (s: Sys<int>)
    ensures Reachable(s) && Stands(s, User, User, WithCapacity(0)) && s.park.waiting == {}
  {
    s := Init<int>(2, map[0 := 0]);
    assert Reaches(s, 2, map[0 := 0], []);
    assert s.chans[0] == WithCapacity(0);
  }

  lemma SenderParked(v: int) returns (s: Sys<int>)
    ensures Reachable(s)
    ensures Stands(s, Resume(OnSend(0, 0)), User, SendLock(WithCapacity(0), 0, v).0) && s.park.waiting == {0}
  {
    var s0 := TwoTasks();
    SenderParks(s0, v);
    ReachableStep(s0, Action.Send(0, 0, v));
    s := Apply(s0, Action.Send(0, 0, v));
    SenderSettles(s, SendLock(WithCapacity(0), 0, v).0);
    ReachableStep(s, Commit(0));
    s := Apply(s, Commit(0));
  }

  lemma SenderServed(s: Sys<int>, ch: ChanState<int>, v: int) returns (s': Sys<int>)
    requires Reachable(s) && Stands(s, Resume(OnSend(0, 0)), User, ch) && s.park.waiting == {0}
    requires RecvLock(ch, 1).1 == FromSender(0, v)
    ensures Reachable(s') && Stands(s', Resume(OnSend(0, 0)), User, RecvReturn(RecvLock(ch, 1).0, 1, v))
    ensures s'.park.waiting == {}
  {
    ReceiverTakes(s, ch, v);
    ReachableStep(s, Action.Recv(1, 0));
    s' := Apply(s, Action.Recv(1, 0));
    ReceiverWakes(s', RecvLock(ch, 1).0, v);
    ReachableStep(s', WakeNext(1));
    s' := Apply(s', WakeNext(1));
  }

  /** A run where it happens: the receiver takes the value of the parked sender 0 and
      closes the channel before the sender resumes; the sender panics although its value
      has arrived. */
  lemma PanicAfterDelivery(v: int)
    ensures exists s: Sys<int> ::
      Reachable(s) && s.aborted && 0 in s.chans && s.chans[0].returned == [(1, v)] && s.chans[0].lost == []
  {
    var s := SenderParked(v);
    var ch := SendLock(WithCapacity(0), 0, v).0;
    ValueTaken(v);
    s := SenderServed(s, ch, v);
    s := ClosedTooEarly(s, RecvReturn(RecvLock(ch, 1).0, 1, v));
  }

  lemma ValueTaken(v: int)
    ensures var ch := SendLock(WithCapacity(0), 0, v).0;
      && RecvLock(ch, 1).1 == FromSender(0, v)
      && RecvReturn(RecvLock(ch, 1).0, 1, v).returned == [(1, v)]
      && RecvReturn(RecvLock(ch, 1).0, 1, v).lost == [] && !RecvReturn(RecvLock(ch, 1).0, 1, v).closed
      && RecvReturn(RecvLock(ch, 1).0, 1, v).recvq == [] && RecvReturn(RecvLock(ch, 1).0, 1, v).sendq == []
  {
  }

  lemma ClosedTooEarly(s: Sys<int>, ch: ChanState<int>) returns (s': Sys<int>)
    requires Reachable(s) && Stands(s, Resume(OnSend(0, 0)), User, ch) && s.park.waiting == {}
    requires !ch.closed && ch.recvq == [] && ch.sendq == []
    ensures Reachable(s') && s'.aborted && 0 in s'.chans
    ensures s'.chans[0].returned == ch.returned && s'.chans[0].lost == ch.lost
  {
    ReceiverCloses(s, ch);
    ReachableStep(s, Action.Close(1, 0));
    ReachableStep(Apply(s, Action.Close(1, 0)), Continue(0));
    s' := Apply(Apply(s, Action.Close(1, 0)), Continue(0));
    assert Data(ch.sendq) == [];
  }

  // ---- Receivers are served in order --------------------------------------------------

  /** A `send` on `c` hands its value to a parked receiver. */
  predicate Serves<T(==)>(s: Sys<T>, a: Action<T>, c: ChanId)
    requires Enabled(s, a)
  {
    a.Send? && a.c == c && SendLock(s.chans[c], a.t, a.v).1.Delivered?
  }

  ghost function Served<T>(s: Sys<T>, acts: seq<Action<T>>, c: ChanId): nat
    requires Run(s, acts)
  {
    if acts == [] then 0
    else
      var k := |acts| - 1;
      Served(s, acts[..k], c) + if Serves(Exec(s, acts[..k]), acts[k], c) then 1 else 0
  }

  lemma RecvqAdvances<T>(s: Sys<T>, a: Action<T>, c: ChanId)
    requires Enabled(s, a) && c in s.chans
    ensures c in Apply(s, a).chans
    ensures s.chans[c].closed ==> Apply(s, a).chans[c].closed
    ensures !Apply(s, a).chans[c].closed ==>
              Advances(s.chans[c].recvq, Apply(s, a).chans[c].recvq, Serves(s, a, c))
  {
    assert s.chans[c].recvq <= s.chans[c].recvq;
  }

  /** While the channel is open, the receiver at position `i` stays in line behind exactly
      those that parked before it. */
  lemma {:induction false} ReceiversInLine<T>(s: Sys<T>, acts: seq<Action<T>>, c: ChanId, i: nat)
    requires Run(s, acts) && c in s.chans && i < |s.chans[c].recvq| && Served(s, acts, c) <= i
    ensures c in Exec(s, acts).chans
    ensures !Exec(s, acts).chans[c].closed ==>
              InLine(s.chans[c].recvq, Exec(s, acts).chans[c].recvq, i, Served(s, acts, c))
  {
    if acts != [] {
      var k := |acts| - 1;
      var now := Exec(s, acts[..k]);
      ReceiversInLine(s, acts[..k], c, i);
      RecvqAdvances(now, acts[k], c);
      if !Apply(now, acts[k]).chans[c].closed {
        InLineStep(s.chans[c].recvq, now.chans[c].recvq, Apply(now, acts[k]).chans[c].recvq,
                   Serves(now, acts[k], c), i, Served(s, acts[..k], c));
      }
    }
  }

  /** It is served by the first `send` after exactly `i` others have been. */
  lemma ServedInOrder<T>(s: Sys<T>, acts: seq<Action<T>>, c: ChanId, i: nat, t: TaskId, v: T)
    requires Run(s, acts) && c in s.chans && i < |s.chans[c].recvq| && Served(s, acts, c) == i
    requires c in Exec(s, acts).chans && !Exec(s, acts).chans[c].closed
    ensures SendLock(Exec(s, acts).chans[c], t, v).1 == Delivered(s.chans[c].recvq[i])
  {
    ReceiversInLine(s, acts, c, i);
  }

  // ---- Close is final -----------------------------------------------------------------

  /** After `close`, along every run: both wait queues stay empty, nothing more is sent
      or lost, and the values still handed over are exactly the buffered ones in order. */
  lemma {:induction false} CloseIsFinal<T(!new)>(s: Sys<T>, acts: seq<Action<T>>, c: ChanId)
    requires Reachable(s) && c in s.chans && s.chans[c].closed && Run(s, acts)
    ensures c in Exec(s, acts).chans
    ensures var ch, ch' := s.chans[c], Exec(s, acts).chans[c];
      && ch'.closed && ch'.recvq == [] && ch'.sendq == []
      && ch'.sent == ch.sent && ch'.lost == ch.lost
      && ch.handed <= ch'.handed
      && Vals(ch'.handed) + ch'.buf == Vals(ch.handed) + ch.buf
  {
    ReachableInv(s);
    if acts == [] {
      assert ChanOk(s, c);
    } else {
      var k := |acts| - 1;
      CloseIsFinal(s, acts[..k], c);
      RunKeepsInv(s, acts[..k]);
      ClosedStep(Exec(s, acts[..k]), acts[k], c);
    }
  }

  ghost predicate OnlyDrained<T>(ch: ChanState<T>, ch': ChanState<T>) {
    && ch'.closed == ch.closed && ch'.recvq == ch.recvq && ch'.sendq == ch.sendq
    && ch'.sent == ch.sent && ch'.lost == ch.lost
    && ch.handed <= ch'.handed
    && Vals(ch'.handed) + ch'.buf == Vals(ch.handed) + ch.buf
  }

  lemma ClosedStep<T>(s: Sys<T>, a: Action<T>, c: ChanId)
    requires Inv(s) && Enabled(s, a) && c in s.chans && s.chans[c].closed
    ensures c in Apply(s, a).chans && OnlyDrained(s.chans[c], Apply(s, a).chans[c])
  {
    assert ChanOk(s, c);
    if a.Recv? && a.c == c {
      ClosedRecv(s.chans[c], a.t);
    } else {
      ClosedOther(s, a, c);
    }
  }

  lemma ClosedRecv<T>(ch: ChanState<T>, t: TaskId)
    requires ch.closed && Shape(ch)
    ensures OnlyDrained(ch, RecvLock(ch, t).0)
  {
    if ch.buf != [] {
      ValsAppend(ch.handed, (t, ch.buf[0]));
      assert Vals(ch.handed) + ch.buf == Vals(ch.handed) + [ch.buf[0]] + ch.buf[1..];
    }
  }

  lemma ClosedOther<T>(s: Sys<T>, a: Action<T>, c: ChanId)
    requires Enabled(s, a) && c in s.chans && s.chans[c].closed && !(a.Recv? && a.c == c)
    ensures c in Apply(s, a).chans && OnlyDrained(s.chans[c], Apply(s, a).chans[c])
  {
  }

  /** What every operation on a closed channel does: `send` and `close` panic, and `recv`
      drains the buffer, then returns `None`. */
  lemma OperationsOnClosed<T(!new)>(s: Sys<T>, t: TaskId, c: ChanId, v: T)
    requires Reachable(s) && !s.aborted && InUser(s, t) && c in s.chans && s.chans[c].closed
    ensures EventOf(s, Action.Send(t, c, v)) == Panics
    ensures EventOf(s, Action.Close(t, c)) == Panics
    ensures EventOf(s, Action.Recv(t, c))
         == RecvReturns(c, t, if s.chans[c].buf == [] then None else Some(s.chans[c].buf[0]))
  {
    ReachableInv(s);
    assert ChanOk(s, c);
  }

  // ---- Only real deadlocks ---------------------------------------------------------------

  /** The task is queued on `c` exactly where `k` says and nowhere else. */
  ghost predicate StuckAt<T>(s: Sys<T>, x: TaskId, k: Wait) {
    match k
    case OnTimer => false
    case OnRecv(c) =>
      && c in s.chans && x in s.chans[c].recvq
      && !s.chans[c].closed && s.chans[c].buf == [] && s.chans[c].sendq == []
      && (forall d :: d in s.chans ==> (d != c ==> x !in s.chans[d].recvq) && x !in Ids(s.chans[d].sendq))
    case OnSend(c, n) =>
      && c in s.chans && x in Ids(s.chans[c].sendq)
      && !s.chans[c].closed && |s.chans[c].buf| == s.chans[c].cap && s.chans[c].recvq == []
      && (forall d :: d in s.chans ==> x !in s.chans[d].recvq && (d != c ==> x !in Ids(s.chans[d].sendq)))
  }

  /** No wakeup is ever lost: if no task is runnable or running and no timer is pending,
      then every live task sits in exactly one wait queue, either of an open, empty
      channel without parked senders (a receiver), or of an open, full channel without
      parked receivers (a sender). */
  lemma OnlyRealDeadlocks<T(!new)>(s: Sys<T>, x: TaskId)
    requires Reachable(s)
    requires forall t :: t in s.park.live ==> t in s.park.waiting
    requires forall t :: t in s.regAt ==> s.regAt[t] != AtTimer
    requires x in s.park.live
    ensures x in s.pc && s.pc[x].Resume? && StuckAt(s, x, s.pc[x].k)
  {
    ReachableInv(s);
    Stuck(s, x);
  }

  lemma Stuck<T>(s: Sys<T>, x: TaskId)
    requires Inv(s)
    requires forall t :: t in s.park.live ==> t in s.park.waiting
    requires forall t :: t in s.regAt ==> s.regAt[t] != AtTimer
    requires x in s.park.live
    ensures x in s.pc && s.pc[x].Resume? && StuckAt(s, x, s.pc[x].k)
  {
    assert TaskOk(s, x) && x in s.regAt && RegOk(s, x);
    if s.regAt[x].Flight? {
      WakersAreActive(s, x);
      assert false;
    }
    QueuedOnce(s, x);
    var c := s.pc[x].k.c;
    assert ChanOk(s, c);
    if s.pc[x].k.OnSend? {
      var ch := s.chans[c];
      assert Ids(ch.sendq)[QueuePos(ch, s.pc[x].k.n)] == x;
    }
  }

  /** Whoever still has a `goready` to make is itself runnable or running. */
  lemma WakersAreActive<T>(s: Sys<T>, x: TaskId)
    requires Inv(s) && x in s.regAt && s.regAt[x].Flight?
    ensures PW.Active(s.park, s.regAt[x].waker)
  {
    assert RegOk(s, x);
    assert TaskOk(s, s.regAt[x].waker);
  }

  /** Whoever is in a queue is registered there, so in no other. */
  lemma QueuedOnce<T>(s: Sys<T>, x: TaskId)
    requires Inv(s)
    ensures forall d :: d in s.chans && x in s.chans[d].recvq ==> x in s.regAt && s.regAt[x] == AtRecvq(d)
    ensures forall d :: d in s.chans && x in Ids(s.chans[d].sendq) ==> x in s.regAt && s.regAt[x] == AtSendq(d)
  {
    forall d | d in s.chans
      ensures x in s.chans[d].recvq ==> x in s.regAt && s.regAt[x] == AtRecvq(d)
      ensures x in Ids(s.chans[d].sendq) ==> x in s.regAt && s.regAt[x] == AtSendq(d)
    {
      assert QueuesOk(s, d);
      var q := s.chans[d].sendq;
      if x in Ids(q) {
        var i :| 0 <= i < |q| && Ids(q)[i] == x;
        assert q[i].id == x;
      }
    }
  }

  // ---- Wakeups are conserved ----------------------------------------------------------

  /** The protocol labels along a run. */
  ghost function Labels<T>(s: Sys<T>, acts: seq<Action<T>>): seq<PW.Label>
    requires Run(s, acts)
  {
    if acts == [] then []
    else Labels(s, acts[..|acts| - 1]) + [LabelOf(Exec(s, acts[..|acts| - 1]), acts[|acts| - 1])]
  }

  /** Every run of tasks and channels is a disciplined run of the park/wake protocol. */
  lemma {:induction false} RunIsDisciplined<T>(n: nat, caps: map<ChanId, nat>, acts: seq<Action<T>>)
    requires Run(Init<T>(n, caps), acts)
    ensures var ls := Labels(Init<T>(n, caps), acts);
      PW.Run(PW.Init(n), ls) && Exec(Init<T>(n, caps), acts).park == PW.Exec(PW.Init(n), ls)
  {
    var s := Init<T>(n, caps);
    if acts != [] {
      var k := |acts| - 1;
      RunIsDisciplined<T>(n, caps, acts[..k]);
      InitInv<T>(n, caps);
      RunKeepsInv(s, acts[..k]);
      KeepsParkWake(Exec(s, acts[..k]), acts[k]);
      ParkFollows(Exec(s, acts[..k]), acts[k]);
      PW.ExtendRun(PW.Init(n), Labels(s, acts[..k]), LabelOf(Exec(s, acts[..k]), acts[k]));
    }
  }

  lemma ParkFollows<T>(s: Sys<T>, a: Action<T>)
    requires Enabled(s, a)
    ensures Apply(s, a).park == PW.Apply(s.park, LabelOf(s, a))
  {
  }

  /** Whenever a task is between operations, each time it parked on a channel or timer
      has been matched by exactly one `goready` and one settled park, and no token of it
      is left over to disturb a later park. */
  lemma EveryWaitMatched<T>(n: nat, caps: map<ChanId, nat>, acts: seq<Action<T>>, t: TaskId)
    requires Run(Init<T>(n, caps), acts) && PW.Active(Exec(Init<T>(n, caps), acts).park, t)
    ensures var ls := Labels(Init<T>(n, caps), acts);
      PW.Occurs(ls, PW.Register(t)) == PW.Occurs(ls, PW.Ready(t)) == PW.Occurs(ls, PW.Commit(t))
    ensures t !in Exec(Init<T>(n, caps), acts).park.pending
  {
    RunIsDisciplined<T>(n, caps, acts);
    PW.ActiveIsSettled(n, Labels(Init<T>(n, caps), acts), t);
  }
}
