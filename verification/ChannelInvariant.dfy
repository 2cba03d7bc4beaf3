/** The invariant of ChannelSystem holds in every reachable state. */
module ChannelInvariant {
  import opened Common
  import PW = ParkWake
  import opened Channel
  import opened ChannelSystem

  lemma InitInv<T>(n: nat, caps: map<ChanId, nat>)
    ensures Inv(Init<T>(n, caps))
  {
    PW.InitInv(n);
    var s := Init<T>(n, caps);
    forall c | c in s.chans ensures ChanOk(s, c) {
      assert s.chans[c] == WithCapacity(caps[c]);
    }
  }

  // ---- The frame of an action ----------------------------------------------------------
  //
  // Every action is the business of one task `t` and at most one channel `c` (-1 when it
  // touches none).  What follows shows once and for all that everything else keeps its
  // invariant; each action then only has to account for `t` and `c`.

  ghost predicate SameReg<T>(s: Sys<T>, s': Sys<T>, y: TaskId) {
    && (y in s.regAt <==> y in s'.regAt)
    && (y in s.regAt ==> s.regAt[y] == s'.regAt[y])
  }

  predicate QueuedOn(w: Where, c: int) {
    (w.AtRecvq? && w.c == c) || (w.AtSendq? && w.c == c)
  }

  /** The registration of `y` stays, or `t` takes it out of a queue of `c`, or `t`
      answers it. */
  ghost predicate RegMove<T>(s: Sys<T>, s': Sys<T>, t: TaskId, c: int, y: TaskId) {
    || SameReg(s, s', y)
    || (y in s.regAt && y in s'.regAt && QueuedOn(s.regAt[y], c) && s'.regAt[y] == Flight(t))
    || (y in s.regAt && y !in s'.regAt && s.regAt[y] == Flight(t))
  }

  ghost predicate WaitsOn<T>(s: Sys<T>, x: TaskId, c: int) {
    x in s.pc && (s.pc[x].Blocked? || s.pc[x].Resume?) && !s.pc[x].k.OnTimer? && s.pc[x].k.c == c
  }

  ghost predicate Frame<T>(s: Sys<T>, s': Sys<T>, t: TaskId, c: int) {
    && t in s.pc
    && s.pc.Keys <= s'.pc.Keys
    && (forall y :: y in s.pc && y != t ==> s'.pc[y] == s.pc[y])
    && s.chans.Keys <= s'.chans.Keys
    && (forall d :: d in s.chans && d != c ==> s'.chans[d] == s.chans[d])
    && (forall y :: y != t ==> RegMove(s, s', t, c, y))
    && (t !in s.regAt || SameReg(s, s', t) || s.regAt[t] == AtTimer)
    && (forall y :: y in s'.regAt && s'.regAt[y] == Flight(t) ==>
          s'.pc[t].Waking? && y in s'.pc[t].list)
    && (c in s.chans ==>
          |s.chans[c].handed| + |s.chans[c].buf| <= |s'.chans[c].handed| + |s'.chans[c].buf|)
  }

  ghost predicate ParkFrame(p: PW.State, p': PW.State, t: TaskId) {
    && (forall y :: y != t && y < p.next ==> (y in p.live <==> y in p'.live) && (y in p.parking <==> y in p'.parking))
    && (forall y :: y != t && y in p'.waiting ==> y in p.waiting)
  }

  lemma OtherTask<T>(s: Sys<T>, s': Sys<T>, t: TaskId, c: int, x: TaskId)
    requires Frame(s, s', t, c) && ParkFrame(s.park, s'.park, t)
    requires x in s.pc && x != t && x < s.park.next && TaskOk(s, x)
    requires WaitsOn(s, x, c) ==> WaitOk(s', x, s.pc[x].k)
    ensures TaskOk(s', x)
  {
    match s.pc[x] {
      case Waking(list, after) =>
        forall y | y in list ensures y in s'.regAt && s'.regAt[y] == Flight(x) {
          assert y == t || RegMove(s, s', t, c, y);
        }
      case Blocked(k) => assert RegMove(s, s', t, c, x);
      case Resume(k) => assert RegMove(s, s', t, c, x);
      case _ =>
    }
  }

  lemma OtherReg<T>(s: Sys<T>, s': Sys<T>, t: TaskId, c: int, x: TaskId)
    requires Frame(s, s', t, c)
    requires x in s'.regAt && x != t && x in s.regAt && RegOk(s, x)
    ensures RegOk(s', x)
  {
    assert RegMove(s, s', t, c, x);
  }

  /** `t` keeps waiting where it waited, or did not wait on `d`. */
  ghost predicate KeepsWaiting<T>(s: Sys<T>, s': Sys<T>, t: TaskId, d: ChanId) {
    WaitsOn(s, t, d) ==>
      SameReg(s, s', t) && t in s'.pc && (s'.pc[t].Blocked? || s'.pc[t].Resume?)
      && s'.pc[t].k == s.pc[t].k
  }

  lemma OtherQueues<T>(s: Sys<T>, s': Sys<T>, t: TaskId, c: int, d: ChanId)
    requires Frame(s, s', t, c)
    requires d in s.chans && d != c && QueuesOk(s, d)
    requires KeepsWaiting(s, s', t, d)
    ensures QueuesOk(s', d)
  {
    var ch := s.chans[d];
    forall y | y in ch.recvq
      ensures WaitsFor(s', y, OnRecv(d)) && y in s'.regAt && s'.regAt[y] == AtRecvq(d)
    {
      StaysQueued(s, s', t, c, d, y, OnRecv(d));
    }
    forall i | 0 <= i < |ch.sendq|
      ensures WaitsFor(s', ch.sendq[i].id, OnSend(d, |ch.handed| + |ch.buf| + i))
           && ch.sendq[i].id in s'.regAt && s'.regAt[ch.sendq[i].id] == AtSendq(d)
    {
      StaysQueued(s, s', t, c, d, ch.sendq[i].id, OnSend(d, |ch.handed| + |ch.buf| + i));
    }
    forall y | y in ch.delivered ensures WaitsFor(s', y, OnRecv(d)) {
      assert WaitsFor(s, y, OnRecv(d));
    }
  }

  lemma StaysQueued<T>(s: Sys<T>, s': Sys<T>, t: TaskId, c: int, d: ChanId, y: TaskId, k: Wait)
    requires Frame(s, s', t, c) && KeepsWaiting(s, s', t, d) && d != c
    requires WaitsFor(s, y, k) && !k.OnTimer? && k.c == d
    requires y in s.regAt && s.regAt[y] == if k.OnRecv? then AtRecvq(d) else AtSendq(d)
    ensures WaitsFor(s', y, k) && y in s'.regAt && s'.regAt[y] == s.regAt[y]
  {
    assert y == t || RegMove(s, s', t, c, y);
  }

  lemma OtherHands<T>(s: Sys<T>, s': Sys<T>, t: TaskId, c: int, d: ChanId)
    requires Frame(s, s', t, c)
    requires d in s.chans && d != c && HandsOk(s, d)
    requires InHand(s', d, t) == InHand(s, d, t)
    requires forall x :: x in s'.pc && x !in s.pc ==> s'.pc[x] == User
    ensures HandsOk(s', d)
  {
    forall r ensures InHand(s', d, r) == InHand(s, d, r) {
    }
  }

  /** What an action of `t` on `c` has to account for. */
  lemma Preserved<T>(s: Sys<T>, s': Sys<T>, t: TaskId, c: int)
    requires Inv(s) && Frame(s, s', t, c) && ParkFrame(s.park, s'.park, t)
    requires PW.Inv(s'.park) && s'.regAt.Keys == s'.park.reg && s.park.next <= s'.park.next
    requires s'.park.live <= s'.pc.Keys
    requires forall x :: x in s'.pc && x !in s.pc ==> x < s'.park.next && s'.pc[x] == User && TaskOk(s', x)
    requires TaskOk(s', t) && (t in s'.regAt ==> RegOk(s', t))
    requires forall d :: d in s'.chans && (d == c || d !in s.chans) ==> ChanOk(s', d)
    requires forall d :: d in s.chans && d != c ==>
               KeepsWaiting(s, s', t, d) && InHand(s', d, t) == InHand(s, d, t)
    requires forall x :: WaitsOn(s, x, c) && x != t ==> WaitOk(s', x, s.pc[x].k)
    ensures Inv(s')
  {
    forall x | x in s'.pc ensures TaskOk(s', x) {
      if x in s.pc && x != t {
        assert TaskOk(s, x);
        OtherTask(s, s', t, c, x);
      }
    }
    forall x | x in s'.regAt ensures RegOk(s', x) {
      if x != t {
        assert RegMove(s, s', t, c, x);
        assert RegOk(s, x);
        OtherReg(s, s', t, c, x);
      }
    }
    forall d | d in s'.chans ensures ChanOk(s', d) {
      if d in s.chans && d != c {
        assert ChanOk(s, d);
        OtherQueues(s, s', t, c, d);
        OtherHands(s, s', t, c, d);
      }
    }
  }

  /** The common case: the protocol state stays. */
  lemma PreservedQuietly<T>(s: Sys<T>, s': Sys<T>, t: TaskId, c: ChanId)
    requires Inv(s) && Frame(s, s', t, c)
    requires s'.park == s.park && s'.pc.Keys == s.pc.Keys && s'.chans.Keys == s.chans.Keys
    requires s'.regAt.Keys == s.regAt.Keys && t !in s.regAt
    requires forall d :: d in s.chans && d != c ==> !WaitsOn(s, t, d)
    requires TaskOk(s', t) && c in s'.chans && ChanOk(s', c)
    requires forall d :: d in s.chans && d != c ==> InHand(s', d, t) == InHand(s, d, t)
    requires forall x :: WaitsOn(s, x, c) && x != t ==> WaitOk(s', x, s.pc[x].k)
    ensures Inv(s')
  {
    forall x | x in s'.pc ensures TaskOk(s', x) {
      if x != t {
        assert TaskOk(s, x);
        OtherTask(s, s', t, c, x);
      }
    }
    forall x | x in s'.regAt ensures RegOk(s', x) {
      assert RegMove(s, s', t, c, x);
      assert RegOk(s, x);
      OtherReg(s, s', t, c, x);
    }
    forall d | d in s'.chans ensures ChanOk(s', d) {
      if d != c {
        assert ChanOk(s, d);
        OtherQueues(s, s', t, c, d);
        OtherHands(s, s', t, c, d);
      }
    }
  }

  // ---- Each action ------------------------------------------------------------------

  lemma KeepsParkWake<T>(s: Sys<T>, a: Action<T>)
    requires Inv(s) && Enabled(s, a)
    ensures PW.Enabled(s.park, LabelOf(s, a)) && PW.Disciplined(s.park, LabelOf(s, a))
    ensures PW.Inv(PW.Apply(s.park, LabelOf(s, a)))
  {
    assert a.WakeNext? ==> TaskOk(s, a.t);
    WakesTheRegistered(s, a);
    PW.StepInv(s.park, LabelOf(s, a));
  }

  lemma WakesTheRegistered<T>(s: Sys<T>, a: Action<T>)
    requires Enabled(s, a) && s.regAt.Keys == s.park.reg && (a.WakeNext? ==> TaskOk(s, a.t))
    ensures PW.Enabled(s.park, LabelOf(s, a)) && PW.Disciplined(s.park, LabelOf(s, a))
  {
    if a.WakeNext? {
      assert s.pc[a.t].list[0] in s.pc[a.t].list;
    }
  }

  /** Nothing is registered, queued, kept or in flight for `t`, nor owed by it. */
  ghost predicate Unbound<T>(s: Sys<T>, t: TaskId) {
    && t in s.pc && s.pc[t] == User && t !in s.regAt
    && (forall y :: y in s.regAt ==> s.regAt[y] != Flight(t))
    && (forall c :: c in s.chans ==> Fresh(s.chans[c], t))
  }

  lemma UserIsUnbound<T>(s: Sys<T>, t: TaskId)
    requires Inv(s) && InUser(s, t)
    ensures Unbound(s, t)
  {
    assert t !in s.park.reg;
    forall y | y in s.regAt ensures s.regAt[y] != Flight(t) {
      assert RegOk(s, y);
    }
    forall c | c in s.chans ensures Fresh(s.chans[c], t) {
      var ch := s.chans[c];
      assert QueuesOk(s, c);
      forall i | 0 <= i < |ch.sendq| ensures Ids(ch.sendq)[i] != t {
        assert WaitsFor(s, ch.sendq[i].id, OnSend(c, |ch.handed| + |ch.buf| + i));
      }
    }
  }

  /** Handing `v` to `r`, which now holds it. */
  lemma HandsGiven<T>(s: Sys<T>, s': Sys<T>, c: ChanId, r: TaskId, v: T)
    requires c in s.chans && c in s'.chans && HandsOk(s, c)
    requires s'.chans[c].handed == s.chans[c].handed + [(r, v)]
    requires s'.chans[c].returned == s.chans[c].returned
    requires InHand(s, c, r) == [] && InHand(s', c, r) == [v]
    requires forall x :: x != r ==> InHand(s', c, x) == InHand(s, c, x)
    ensures HandsOk(s', c)
  {
    forall x ensures Proj(s'.chans[c].returned, x) + InHand(s', c, x) == Proj(s'.chans[c].handed, x) {
      ProjAppend(s.chans[c].handed, (r, v), x);
      assert Proj(s.chans[c].returned, x) + InHand(s, c, x) == Proj(s.chans[c].handed, x);
    }
  }

  ghost predicate DeliverStep<T>(s: Sys<T>, s': Sys<T>, t: TaskId, c: ChanId, v: T, r: TaskId) {
    && t in s.pc && c in s.chans
    && SendLock(s.chans[c], t, v).1 == Delivered(r)
    && s'.chans == s.chans[c := SendLock(s.chans[c], t, v).0]
    && s'.pc == s.pc[t := Waking([r], SendDone(c, |s.chans[c].sent|))]
    && s'.regAt == Redirect(s.regAt, [r], Flight(t))
    && s'.park == s.park
  }

  lemma DeliverFrame<T>(s: Sys<T>, s': Sys<T>, t: TaskId, c: ChanId, v: T, r: TaskId)
    requires DeliverStep(s, s', t, c, v, r) && Unbound(s, t) && ChanOk(s, c)
    ensures Frame(s, s', t, c)
    ensures s'.regAt.Keys == s.regAt.Keys
    ensures forall d :: d in s.chans && d != c ==> InHand(s', d, t) == InHand(s, d, t)
  {
    assert r in s.chans[c].recvq;
  }

  lemma DeliverChan<T>(s: Sys<T>, s': Sys<T>, t: TaskId, c: ChanId, v: T, r: TaskId)
    requires DeliverStep(s, s', t, c, v, r) && Unbound(s, t) && ChanOk(s, c) && TaskOk(s, t)
    ensures ChanOk(s', c)
    ensures TaskOk(s', t)
  {
    assert r in s.chans[c].recvq;
    Channel.SendKeepsInv(s.chans[c], t, v);
    DeliverQueues(s, s', t, c, v, r);
    HandsGiven(s, s', c, r, v);
  }

  lemma DeliverQueues<T>(s: Sys<T>, s': Sys<T>, t: TaskId, c: ChanId, v: T, r: TaskId)
    requires DeliverStep(s, s', t, c, v, r) && Unbound(s, t) && QueuesOk(s, c) && Shape(s.chans[c])
    ensures QueuesOk(s', c)
  {
    var q := s.chans[c].recvq;
    assert r == q[0] && WaitsFor(s, r, OnRecv(c));
    assert s.chans[c].sendq == [];
    forall y | y in q[1..]
      ensures y != r && WaitsFor(s, y, OnRecv(c)) && y in s.regAt && s.regAt[y] == AtRecvq(c)
    {
      var i :| 0 <= i < |q| - 1 && q[1..][i] == y;
      assert q[i + 1] == y;
    }
  }

  lemma DeliverWaiters<T>(s: Sys<T>, s': Sys<T>, t: TaskId, c: ChanId, v: T, r: TaskId, x: TaskId)
    requires DeliverStep(s, s', t, c, v, r) && ChanOk(s, c)
    requires WaitsOn(s, x, c) && WaitOk(s, x, s.pc[x].k)
    ensures WaitOk(s', x, s.pc[x].k)
  {
    assert r in s.chans[c].recvq;
  }

  lemma DeliverAllWaiters<T>(s: Sys<T>, s': Sys<T>, t: TaskId, c: ChanId, v: T, r: TaskId)
    requires DeliverStep(s, s', t, c, v, r) && ChanOk(s, c)
    requires forall x :: x in s.pc ==> TaskOk(s, x)
    ensures forall x :: WaitsOn(s, x, c) && x != t ==> WaitOk(s', x, s.pc[x].k)
  {
    forall x | WaitsOn(s, x, c) && x != t ensures WaitOk(s', x, s.pc[x].k) {
      assert TaskOk(s, x);
      DeliverWaiters(s, s', t, c, v, r, x);
    }
  }

  lemma SendDelivers<T>(s: Sys<T>, s': Sys<T>, t: TaskId, c: ChanId, v: T, r: TaskId)
    requires Inv(s) && InUser(s, t) && DeliverStep(s, s', t, c, v, r)
    ensures Inv(s')
  {
    UserIsUnbound(s, t);
    assert ChanOk(s, c) && TaskOk(s, t);
    DeliverFrame(s, s', t, c, v, r);
    DeliverChan(s, s', t, c, v, r);
    DeliverAllWaiters(s, s', t, c, v, r);
    PreservedQuietly(s, s', t, c);
  }

  // send: into the buffer

  ghost predicate BufferStep<T>(s: Sys<T>, s': Sys<T>, t: TaskId, c: ChanId, v: T) {
    && t in s.pc && c in s.chans
    && SendLock(s.chans[c], t, v).1 == Buffered
    && s' == s.(chans := s.chans[c := SendLock(s.chans[c], t, v).0])
  }

  lemma BufferChan<T>(s: Sys<T>, s': Sys<T>, t: TaskId, c: ChanId, v: T)
    requires BufferStep(s, s', t, c, v) && Unbound(s, t) && ChanOk(s, c)
    ensures ChanOk(s', c) && Frame(s, s', t, c)
  {
    Channel.SendKeepsInv(s.chans[c], t, v);
    assert s.chans[c].sendq == [] && s.chans[c].recvq == [];
    assert QueuesOk(s', c);
    forall r ensures InHand(s', c, r) == InHand(s, c, r) {
    }
  }

  lemma BufferWaiters<T>(s: Sys<T>, s': Sys<T>, t: TaskId, c: ChanId, v: T, x: TaskId)
    requires BufferStep(s, s', t, c, v) && Shape(s.chans[c])
    requires WaitsOn(s, x, c) && WaitOk(s, x, s.pc[x].k)
    ensures WaitOk(s', x, s.pc[x].k)
  {
  }

  lemma BufferAllWaiters<T>(s: Sys<T>, s': Sys<T>, t: TaskId, c: ChanId, v: T)
    requires BufferStep(s, s', t, c, v) && Shape(s.chans[c])
    requires forall x :: x in s.pc ==> TaskOk(s, x)
    ensures forall x :: WaitsOn(s, x, c) && x != t ==> WaitOk(s', x, s.pc[x].k)
  {
    forall x | WaitsOn(s, x, c) && x != t ensures WaitOk(s', x, s.pc[x].k) {
      assert TaskOk(s, x);
      BufferWaiters(s, s', t, c, v, x);
    }
  }

  lemma SendBuffers<T>(s: Sys<T>, s': Sys<T>, t: TaskId, c: ChanId, v: T)
    requires Inv(s) && InUser(s, t) && BufferStep(s, s', t, c, v)
    ensures Inv(s')
  {
    UserIsUnbound(s, t);
    assert ChanOk(s, c) && TaskOk(s, t);
    BufferChan(s, s', t, c, v);
    BufferAllWaiters(s, s', t, c, v);
    PreservedQuietly(s, s', t, c);
  }

  // Parking, in send, recv or sleep

  /** `t`, so far in user code, has queued itself on `c` (or on the timer heap, for
      c == -1) and is about to park. */
  ghost predicate ParkStep<T>(s: Sys<T>, s': Sys<T>, t: TaskId, c: int, k: Wait, w: Where) {
    && s'.park == PW.Apply(s.park, PW.Register(t))
    && s'.pc == s.pc[t := Blocked(k)]
    && s'.regAt == s.regAt[t := w]
    && s'.chans.Keys == s.chans.Keys
    && (forall d :: d in s.chans && d != c ==> s'.chans[d] == s.chans[d])
    && match k
       case OnTimer => w == AtTimer && c == -1
       case OnRecv(d) => w == AtRecvq(d) && c == d && d in s.chans
       case OnSend(d, n) => w == AtSendq(d) && c == d && d in s.chans
  }

  lemma Parks<T>(s: Sys<T>, s': Sys<T>, t: TaskId, c: int, k: Wait, w: Where)
    requires Inv(s) && InUser(s, t) && Unbound(s, t) && ParkStep(s, s', t, c, k, w)
    requires c in s.chans ==> ChanOk(s', c)
    requires c in s.chans ==> s'.chans[c].handed == s.chans[c].handed && s'.chans[c].buf == s.chans[c].buf
    requires WaitOk(s', t, k)
    requires forall x :: WaitsOn(s, x, c) && x != t ==> WaitOk(s', x, s.pc[x].k)
    ensures Inv(s')
  {
    PW.StepInv(s.park, PW.Register(t));
    ParkFrames(s, s', t, c, k, w);
    assert TaskOk(s, t);
    ParksTask(s, s', t, c, k, w);
    Preserved(s, s', t, c);
  }

  lemma ParksTask<T>(s: Sys<T>, s': Sys<T>, t: TaskId, c: int, k: Wait, w: Where)
    requires Unbound(s, t) && PW.Active(s.park, t) && ParkStep(s, s', t, c, k, w) && TaskOk(s, t)
    requires WaitOk(s', t, k)
    ensures TaskOk(s', t) && RegOk(s', t)
    ensures forall d :: d in s.chans ==> KeepsWaiting(s, s', t, d)
  {
  }

  lemma ParkFrames<T>(s: Sys<T>, s': Sys<T>, t: TaskId, c: int, k: Wait, w: Where)
    requires Unbound(s, t) && ParkStep(s, s', t, c, k, w)
    requires c in s.chans ==> s'.chans[c].handed == s.chans[c].handed && s'.chans[c].buf == s.chans[c].buf
    ensures Frame(s, s', t, c) && ParkFrame(s.park, s'.park, t)
    ensures forall d :: d in s.chans && d != c ==> InHand(s', d, t) == InHand(s, d, t)
  {
  }

  ghost predicate SendParkStep<T>(s: Sys<T>, s': Sys<T>, t: TaskId, c: ChanId, v: T) {
    && t in s.pc && c in s.chans
    && SendLock(s.chans[c], t, v).1 == SendParks
    && s'.chans == s.chans[c := SendLock(s.chans[c], t, v).0]
    && ParkStep(s, s', t, c, OnSend(c, |s.chans[c].sent|), AtSendq(c))
  }

  lemma SendParkChan<T>(s: Sys<T>, s': Sys<T>, t: TaskId, c: ChanId, v: T)
    requires SendParkStep(s, s', t, c, v) && Unbound(s, t) && ChanOk(s, c)
    ensures ChanOk(s', c)
    ensures WaitOk(s', t, OnSend(c, |s.chans[c].sent|))
  {
    Channel.SendKeepsInv(s.chans[c], t, v);
    assert |s.chans[c].sent| == |s.chans[c].handed| + |s.chans[c].buf| + |s.chans[c].sendq|;
    SendParkQueues(s, s', t, c, v);
    forall r ensures InHand(s', c, r) == InHand(s, c, r) {
    }
  }

  lemma SendParkQueues<T>(s: Sys<T>, s': Sys<T>, t: TaskId, c: ChanId, v: T)
    requires SendParkStep(s, s', t, c, v) && Unbound(s, t) && QueuesOk(s, c)
    requires |s.chans[c].sent| == |s.chans[c].handed| + |s.chans[c].buf| + |s.chans[c].sendq|
    ensures QueuesOk(s', c)
  {
    var (ch, ch') := (s.chans[c], s'.chans[c]);
    assert ch' == ch.(sendq := ch.sendq + [SendWaiter(t, v)], sent := ch.sent + [v]) && ch.recvq == [];
    JoinsSendq(s, s', t, c, v);
  }

  lemma JoinsSendq<T>(s: Sys<T>, s': Sys<T>, t: TaskId, c: ChanId, v: T)
    requires c in s.chans && c in s'.chans && Unbound(s, t) && QueuesOk(s, c) && s.chans[c].recvq == []
    requires var ch := s.chans[c];
      && s'.chans[c] == ch.(sendq := ch.sendq + [SendWaiter(t, v)], sent := ch.sent + [v])
      && s'.pc == s.pc[t := Blocked(OnSend(c, |ch.handed| + |ch.buf| + |ch.sendq|))]
      && s'.regAt == s.regAt[t := AtSendq(c)]
    ensures QueuesOk(s', c)
  {
    var (ch, ch') := (s.chans[c], s'.chans[c]);
    forall i | 0 <= i < |ch'.sendq|
      ensures WaitsFor(s', ch'.sendq[i].id, OnSend(c, |ch.handed| + |ch.buf| + i))
           && ch'.sendq[i].id in s'.regAt && s'.regAt[ch'.sendq[i].id] == AtSendq(c)
    {
      if i < |ch.sendq| {
        assert WaitsFor(s, ch.sendq[i].id, OnSend(c, |ch.handed| + |ch.buf| + i));
      }
    }
  }

  lemma SendParkWaiters<T>(s: Sys<T>, s': Sys<T>, t: TaskId, c: ChanId, v: T, x: TaskId)
    requires SendParkStep(s, s', t, c, v) && x != t
    requires WaitsOn(s, x, c) && WaitOk(s, x, s.pc[x].k)
    ensures WaitOk(s', x, s.pc[x].k)
  {
    var ch := s.chans[c];
    if x in s.regAt && s.pc[x].k.OnSend? && !s.regAt[x].Flight? {
      assert s'.chans[c].sendq[QueuePos(ch, s.pc[x].k.n)] == ch.sendq[QueuePos(ch, s.pc[x].k.n)];
    }
  }

  lemma SendParkAllWaiters<T>(s: Sys<T>, s': Sys<T>, t: TaskId, c: ChanId, v: T)
    requires SendParkStep(s, s', t, c, v)
    requires forall x :: x in s.pc ==> TaskOk(s, x)
    ensures forall x :: WaitsOn(s, x, c) && x != t ==> WaitOk(s', x, s.pc[x].k)
  {
    forall x | WaitsOn(s, x, c) && x != t ensures WaitOk(s', x, s.pc[x].k) {
      assert TaskOk(s, x);
      SendParkWaiters(s, s', t, c, v, x);
    }
  }

  lemma SendParksKeeps<T>(s: Sys<T>, s': Sys<T>, t: TaskId, c: ChanId, v: T)
    requires Inv(s) && InUser(s, t) && SendParkStep(s, s', t, c, v)
    ensures Inv(s')
  {
    UserIsUnbound(s, t);
    assert ChanOk(s, c);
    SendParkChan(s, s', t, c, v);
    SendParkAllWaiters(s, s', t, c, v);
    Parks(s, s', t, c, OnSend(c, |s.chans[c].sent|), AtSendq(c));
  }

  ghost predicate RecvParkStep<T>(s: Sys<T>, s': Sys<T>, t: TaskId, c: ChanId) {
    && t in s.pc && c in s.chans
    && RecvLock(s.chans[c], t).1 == RecvParks
    && s'.chans == s.chans[c := RecvLock(s.chans[c], t).0]
    && ParkStep(s, s', t, c, OnRecv(c), AtRecvq(c))
  }

  lemma RecvParkChan<T>(s: Sys<T>, s': Sys<T>, t: TaskId, c: ChanId)
    requires RecvParkStep(s, s', t, c) && Unbound(s, t) && ChanOk(s, c)
    ensures ChanOk(s', c)
    ensures WaitOk(s', t, OnRecv(c))
  {
    Channel.RecvKeepsInv(s.chans[c], t);
    RecvParkQueues(s, s', t, c);
    forall r ensures InHand(s', c, r) == InHand(s, c, r) {
    }
  }

  lemma RecvParkQueues<T>(s: Sys<T>, s': Sys<T>, t: TaskId, c: ChanId)
    requires RecvParkStep(s, s', t, c) && Unbound(s, t) && QueuesOk(s, c)
    ensures QueuesOk(s', c)
  {
    assert s.chans[c].sendq == [];
  }

  lemma RecvParkWaiters<T>(s: Sys<T>, s': Sys<T>, t: TaskId, c: ChanId, x: TaskId)
    requires RecvParkStep(s, s', t, c) && x != t
    requires WaitsOn(s, x, c) && WaitOk(s, x, s.pc[x].k)
    ensures WaitOk(s', x, s.pc[x].k)
  {
  }

  lemma RecvParkAllWaiters<T>(s: Sys<T>, s': Sys<T>, t: TaskId, c: ChanId)
    requires RecvParkStep(s, s', t, c)
    requires forall x :: x in s.pc ==> TaskOk(s, x)
    ensures forall x :: WaitsOn(s, x, c) && x != t ==> WaitOk(s', x, s.pc[x].k)
  {
    forall x | WaitsOn(s, x, c) && x != t ensures WaitOk(s', x, s.pc[x].k) {
      assert TaskOk(s, x);
      RecvParkWaiters(s, s', t, c, x);
    }
  }

  lemma RecvParksKeeps<T>(s: Sys<T>, s': Sys<T>, t: TaskId, c: ChanId)
    requires Inv(s) && InUser(s, t) && RecvParkStep(s, s', t, c)
    ensures Inv(s')
  {
    UserIsUnbound(s, t);
    assert ChanOk(s, c);
    RecvParkChan(s, s', t, c);
    RecvParkAllWaiters(s, s', t, c);
    Parks(s, s', t, c, OnRecv(c), AtRecvq(c));
  }

  // recv: from a parked sender

  ghost predicate TakeStep<T>(s: Sys<T>, s': Sys<T>, t: TaskId, c: ChanId, x: TaskId, v: T) {
    && t in s.pc && c in s.chans
    && RecvLock(s.chans[c], t).1 == FromSender(x, v)
    && s'.chans == s.chans[c := RecvLock(s.chans[c], t).0]
    && s'.pc == s.pc[t := Waking([x], RecvDone(c, v))]
    && s'.regAt == Redirect(s.regAt, [x], Flight(t))
    && s'.park == s.park
  }

  lemma TakeFrame<T>(s: Sys<T>, s': Sys<T>, t: TaskId, c: ChanId, x: TaskId, v: T)
    requires TakeStep(s, s', t, c, x, v) && Unbound(s, t) && ChanOk(s, c)
    ensures Frame(s, s', t, c)
    ensures s'.regAt.Keys == s.regAt.Keys
    ensures forall d :: d in s.chans && d != c ==> InHand(s', d, t) == InHand(s, d, t)
  {
    assert s.chans[c].sendq[0].id == x;
  }

  lemma TakeQueues<T>(s: Sys<T>, s': Sys<T>, t: TaskId, c: ChanId, x: TaskId, v: T)
    requires TakeStep(s, s', t, c, x, v) && Unbound(s, t) && QueuesOk(s, c) && Shape(s.chans[c])
    ensures QueuesOk(s', c)
  {
    var (ch, ch') := (s.chans[c], s'.chans[c]);
    assert Ids(ch.sendq)[0] == x;
    LeavesSendq(s, s', t, c, x);
  }

  /** The first in `sendq`, `x`, leaves it: the others move up as one more value is through. */
  lemma LeavesSendq<T>(s: Sys<T>, s': Sys<T>, t: TaskId, c: ChanId, x: TaskId)
    requires c in s.chans && c in s'.chans && Unbound(s, t) && QueuesOk(s, c)
    requires var (ch, ch') := (s.chans[c], s'.chans[c]);
      && ch.sendq != [] && ch.sendq[0].id == x && NoDup(Ids(ch.sendq))
      && ch.recvq == [] && ch'.recvq == [] && ch'.sendq == ch.sendq[1..] && ch'.delivered == ch.delivered
      && |ch'.handed| + |ch'.buf| == |ch.handed| + |ch.buf| + 1
    requires t in s'.pc && forall y :: y in s.pc && y != t ==> y in s'.pc && s'.pc[y] == s.pc[y]
    requires s'.regAt == Redirect(s.regAt, [x], Flight(t))
    ensures QueuesOk(s', c)
  {
    var (ch, ch') := (s.chans[c], s'.chans[c]);
    forall i | 0 <= i < |ch'.sendq|
      ensures WaitsFor(s', ch'.sendq[i].id, OnSend(c, |ch'.handed| + |ch'.buf| + i))
           && ch'.sendq[i].id in s'.regAt && s'.regAt[ch'.sendq[i].id] == AtSendq(c)
    {
      var w := ch.sendq[i + 1];
      assert Ids(ch.sendq)[0] == x && Ids(ch.sendq)[i + 1] == w.id;
      assert WaitsFor(s, w.id, OnSend(c, |ch.handed| + |ch.buf| + (i + 1)));
    }
  }

  lemma TakeChan<T>(s: Sys<T>, s': Sys<T>, t: TaskId, c: ChanId, x: TaskId, v: T)
    requires TakeStep(s, s', t, c, x, v) && Unbound(s, t) && ChanOk(s, c) && TaskOk(s, t)
    ensures ChanOk(s', c)
    ensures TaskOk(s', t)
  {
    Channel.RecvKeepsInv(s.chans[c], t);
    TakeQueues(s, s', t, c, x, v);
    HandsGiven(s, s', c, t, v);
    assert s.chans[c].sendq[0].id == x;
  }

  lemma TakeWaiters<T>(s: Sys<T>, s': Sys<T>, t: TaskId, c: ChanId, x: TaskId, v: T, y: TaskId)
    requires TakeStep(s, s', t, c, x, v) && Shape(s.chans[c])
    requires WaitsOn(s, y, c) && WaitOk(s, y, s.pc[y].k)
    ensures WaitOk(s', y, s.pc[y].k)
  {
    var ch := s.chans[c];
    assert ch.sendq[0].id == x && Ids(ch.sendq)[0] == x;
    match s.pc[y].k {
      case OnRecv(_) => assert ch.recvq == [];
      case OnSend(_, n) =>
        var i := QueuePos(ch, n);
        if y in s.regAt && !s.regAt[y].Flight? && i > 0 {
          assert Ids(ch.sendq)[i] == y;
          assert s'.chans[c].sendq[i - 1] == ch.sendq[i];
        }
    }
  }

  lemma TakeAllWaiters<T>(s: Sys<T>, s': Sys<T>, t: TaskId, c: ChanId, x: TaskId, v: T)
    requires TakeStep(s, s', t, c, x, v) && Shape(s.chans[c])
    requires forall x :: x in s.pc ==> TaskOk(s, x)
    ensures forall x :: WaitsOn(s, x, c) && x != t ==> WaitOk(s', x, s.pc[x].k)
  {
    forall y | WaitsOn(s, y, c) && y != t ensures WaitOk(s', y, s.pc[y].k) {
      assert TaskOk(s, y);
      TakeWaiters(s, s', t, c, x, v, y);
    }
  }

  lemma RecvTakes<T>(s: Sys<T>, s': Sys<T>, t: TaskId, c: ChanId, x: TaskId, v: T)
    requires Inv(s) && InUser(s, t) && TakeStep(s, s', t, c, x, v)
    ensures Inv(s')
  {
    UserIsUnbound(s, t);
    assert ChanOk(s, c) && TaskOk(s, t);
    TakeFrame(s, s', t, c, x, v);
    TakeChan(s, s', t, c, x, v);
    TakeAllWaiters(s, s', t, c, x, v);
    PreservedQuietly(s, s', t, c);
  }

  // recv: from the buffer

  ghost predicate UnbufferStep<T>(s: Sys<T>, s': Sys<T>, t: TaskId, c: ChanId, v: T) {
    && t in s.pc && c in s.chans
    && RecvLock(s.chans[c], t).1 == FromBuffer(v)
    && s' == s.(chans := s.chans[c := RecvLock(s.chans[c], t).0])
  }

  lemma UnbufferChan<T>(s: Sys<T>, s': Sys<T>, t: TaskId, c: ChanId, v: T)
    requires UnbufferStep(s, s', t, c, v) && Unbound(s, t) && ChanOk(s, c)
    ensures ChanOk(s', c) && Frame(s, s', t, c)
  {
    var ch := s.chans[c];
    Channel.RecvKeepsInv(ch, t);
    assert ch.sendq == [] && ch.recvq == [];
    assert QueuesOk(s', c);
    UnbufferHands(s, s', t, c, v);
  }

  lemma UnbufferHands<T>(s: Sys<T>, s': Sys<T>, t: TaskId, c: ChanId, v: T)
    requires UnbufferStep(s, s', t, c, v) && Unbound(s, t) && HandsOk(s, c)
    ensures HandsOk(s', c)
  {
    var ch := s.chans[c];
    forall r ensures Proj(s'.chans[c].returned, r) + InHand(s', c, r) == Proj(s'.chans[c].handed, r) {
      assert Proj(ch.returned, r) + InHand(s, c, r) == Proj(ch.handed, r);
      UnbufferInHand(s, s', t, c, v, r);
      HandedAndReturned(ch.returned, InHand(s, c, r), ch.handed, t, v, r);
    }
  }

  lemma HandedAndReturned<T>(
      returned: seq<(TaskId, T)>, inHand: seq<T>, handed: seq<(TaskId, T)>, t: TaskId, v: T, r: TaskId)
    requires Proj(returned, r) + inHand == Proj(handed, r) && (r == t ==> inHand == [])
    ensures Proj(returned + [(t, v)], r) + inHand == Proj(handed + [(t, v)], r)
  {
    ProjAppend(returned, (t, v), r);
    ProjAppend(handed, (t, v), r);
  }

  lemma UnbufferInHand<T>(s: Sys<T>, s': Sys<T>, t: TaskId, c: ChanId, v: T, r: TaskId)
    requires UnbufferStep(s, s', t, c, v) && Unbound(s, t)
    ensures InHand(s', c, r) == InHand(s, c, r) && (r == t ==> InHand(s, c, r) == [])
  {
  }

  lemma UnbufferWaiters<T>(s: Sys<T>, s': Sys<T>, t: TaskId, c: ChanId, v: T, x: TaskId)
    requires UnbufferStep(s, s', t, c, v) && Shape(s.chans[c])
    requires WaitsOn(s, x, c) && WaitOk(s, x, s.pc[x].k)
    ensures WaitOk(s', x, s.pc[x].k)
  {
  }

  lemma RecvUnbuffers<T>(s: Sys<T>, s': Sys<T>, t: TaskId, c: ChanId, v: T)
    requires Inv(s) && InUser(s, t) && UnbufferStep(s, s', t, c, v)
    ensures Inv(s')
  {
    UserIsUnbound(s, t);
    assert ChanOk(s, c) && TaskOk(s, t);
    UnbufferChan(s, s', t, c, v);
    forall x | WaitsOn(s, x, c) && x != t ensures WaitOk(s', x, s.pc[x].k) {
      assert TaskOk(s, x);
      UnbufferWaiters(s, s', t, c, v, x);
    }
    PreservedQuietly(s, s', t, c);
  }

  // close

  ghost predicate CloseStep<T>(s: Sys<T>, s': Sys<T>, t: TaskId, c: ChanId, wake: seq<TaskId>) {
    && t in s.pc && c in s.chans
    && CloseLock(s.chans[c]).1 == Closed(wake)
    && s'.chans == s.chans[c := CloseLock(s.chans[c]).0]
    && s'.pc == s.pc[t := WakingPc(wake, CloseDone)]
    && s'.regAt == Redirect(s.regAt, wake, Flight(t))
    && s'.park == s.park
  }

  /** Those to be woken by `close` are registered on `c`, each once. */
  lemma CloseList<T>(s: Sys<T>, s': Sys<T>, t: TaskId, c: ChanId, wake: seq<TaskId>)
    requires CloseStep(s, s', t, c, wake) && ChanOk(s, c)
    ensures NoDup(wake)
    ensures forall y :: y in wake ==> y in s.regAt && QueuedOn(s.regAt[y], c)
    ensures forall y :: y in s.regAt && s.regAt[y] == AtRecvq(c) && y in s.chans[c].recvq ==> y in wake
  {
    var ch := s.chans[c];
    forall i | 0 <= i < |wake| ensures wake[i] in s.regAt && QueuedOn(s.regAt[wake[i]], c) {
      if i >= |ch.recvq| {
        assert wake[i] == ch.sendq[i - |ch.recvq|].id;
      }
    }
  }

  lemma CloseFrame<T>(s: Sys<T>, s': Sys<T>, t: TaskId, c: ChanId, wake: seq<TaskId>)
    requires CloseStep(s, s', t, c, wake) && Unbound(s, t) && ChanOk(s, c) && TaskOk(s, t)
    ensures Frame(s, s', t, c)
    ensures s'.regAt.Keys == s.regAt.Keys
    ensures forall d :: d in s.chans && d != c ==> InHand(s', d, t) == InHand(s, d, t)
    ensures TaskOk(s', t)
  {
    CloseList(s, s', t, c, wake);
  }

  lemma CloseChan<T>(s: Sys<T>, s': Sys<T>, t: TaskId, c: ChanId, wake: seq<TaskId>)
    requires CloseStep(s, s', t, c, wake) && Unbound(s, t) && ChanOk(s, c)
    ensures ChanOk(s', c)
  {
    Channel.CloseKeepsInv(s.chans[c]);
    assert QueuesOk(s', c);
    forall r ensures InHand(s', c, r) == InHand(s, c, r) {
    }
  }

  lemma CloseWaiters<T>(s: Sys<T>, s': Sys<T>, t: TaskId, c: ChanId, wake: seq<TaskId>, y: TaskId)
    requires CloseStep(s, s', t, c, wake) && ChanInv(s.chans[c])
    requires WaitsOn(s, y, c) && WaitOk(s, y, s.pc[y].k)
    ensures WaitOk(s', y, s.pc[y].k)
  {
    var ch := s.chans[c];
    match s.pc[y].k {
      case OnRecv(_) =>
        if y in s.regAt && !s.regAt[y].Flight? {
          assert y in wake;
          assert Data(ch.sendq) == [];
        }
      case OnSend(_, n) =>
        if y in s.regAt && !s.regAt[y].Flight? {
          assert wake[|ch.recvq| + QueuePos(ch, n)] == y;
        }
    }
  }

  lemma CloseAllWaiters<T>(s: Sys<T>, s': Sys<T>, t: TaskId, c: ChanId, wake: seq<TaskId>)
    requires CloseStep(s, s', t, c, wake) && ChanInv(s.chans[c])
    requires forall x :: x in s.pc ==> TaskOk(s, x)
    ensures forall x :: WaitsOn(s, x, c) && x != t ==> WaitOk(s', x, s.pc[x].k)
  {
    forall y | WaitsOn(s, y, c) && y != t ensures WaitOk(s', y, s.pc[y].k) {
      assert TaskOk(s, y);
      CloseWaiters(s, s', t, c, wake, y);
    }
  }

  lemma Closes<T>(s: Sys<T>, s': Sys<T>, t: TaskId, c: ChanId, wake: seq<TaskId>)
    requires Inv(s) && InUser(s, t) && CloseStep(s, s', t, c, wake)
    ensures Inv(s')
  {
    UserIsUnbound(s, t);
    assert ChanOk(s, c) && TaskOk(s, t);
    CloseFrame(s, s', t, c, wake);
    CloseChan(s, s', t, c, wake);
    CloseAllWaiters(s, s', t, c, wake);
    PreservedQuietly(s, s', t, c);
  }

  // The end of a park

  lemma RecvContinues<T>(s: Sys<T>, s': Sys<T>, t: TaskId, c: ChanId)
    requires Inv(s) && PW.Active(s.park, t)
    requires t in s.pc && s.pc[t] == Resume(OnRecv(c)) && c in s.chans
    requires s' == s.(pc := s.pc[t := User], chans := s.chans[c := RecvResume(s.chans[c], t).0])
    ensures Inv(s')
  {
    assert ChanOk(s, c) && TaskOk(s, t);
    assert t !in s.park.reg;
    NotWakingNoFlight(s, t);
    ContinueFrame(s, s', t, c);
    RecvContinueChan(s, s', t, c);
    forall x | WaitsOn(s, x, c) && x != t ensures WaitOk(s', x, s.pc[x].k) {
      assert TaskOk(s, x);
      RecvContinueWaiters(s, s', t, c, x);
    }
    PreservedQuietly(s, s', t, c);
  }

  lemma RecvContinueWaiters<T>(s: Sys<T>, s': Sys<T>, t: TaskId, c: ChanId, x: TaskId)
    requires t in s.pc && c in s.chans && x != t
    requires s' == s.(pc := s.pc[t := User], chans := s.chans[c := RecvResume(s.chans[c], t).0])
    requires WaitsOn(s, x, c) && WaitOk(s, x, s.pc[x].k)
    ensures WaitOk(s', x, s.pc[x].k)
  {
  }

  lemma ContinueFrame<T>(s: Sys<T>, s': Sys<T>, t: TaskId, c: ChanId)
    requires t in s.pc && s.pc[t].Resume? && c in s.chans && t !in s.regAt && NoFlightOf(s, t)
    requires s' == s.(pc := s.pc[t := User], chans := s.chans[c := RecvResume(s.chans[c], t).0])
    ensures Frame(s, s', t, c)
    ensures forall d :: d in s.chans && d != c ==> InHand(s', d, t) == InHand(s, d, t)
  {
  }

  lemma RecvContinueChan<T>(s: Sys<T>, s': Sys<T>, t: TaskId, c: ChanId)
    requires t in s.pc && s.pc[t] == Resume(OnRecv(c)) && c in s.chans
    requires t !in s.regAt && ChanOk(s, c)
    requires s' == s.(pc := s.pc[t := User], chans := s.chans[c := RecvResume(s.chans[c], t).0])
    ensures ChanOk(s', c)
  {
    var ch := s.chans[c];
    RecvContinueQueues(s, s', t, c);
    forall r ensures Proj(s'.chans[c].returned, r) + InHand(s', c, r) == Proj(s'.chans[c].handed, r) {
      if t in ch.delivered {
        ProjAppend(ch.returned, (t, ch.delivered[t]), r);
      }
      assert Proj(ch.returned, r) + InHand(s, c, r) == Proj(ch.handed, r);
    }
  }

  lemma RecvContinueQueues<T>(s: Sys<T>, s': Sys<T>, t: TaskId, c: ChanId)
    requires t !in s.regAt && c in s.chans && QueuesOk(s, c)
    requires t in s.pc && s.pc[t] == Resume(OnRecv(c))
    requires s' == s.(pc := s.pc[t := User], chans := s.chans[c := RecvResume(s.chans[c], t).0])
    ensures QueuesOk(s', c)
  {
    var ch := s.chans[c];
    forall i | 0 <= i < |ch.sendq|
      ensures ch.sendq[i].id != t && WaitsFor(s, ch.sendq[i].id, OnSend(c, |ch.handed| + |ch.buf| + i))
    {
    }
  }

  /** A parked send that finds its channel open returns; so does a sleep. */
  lemma OtherContinues<T>(s: Sys<T>, s': Sys<T>, t: TaskId)
    requires Inv(s) && PW.Active(s.park, t)
    requires t in s.pc && s.pc[t].Resume? && !s.pc[t].k.OnRecv?
    requires s' == s.(pc := s.pc[t := User])
    ensures Inv(s')
  {
    assert TaskOk(s, t);
    assert t !in s.park.reg;
    forall y | y in s.regAt ensures s.regAt[y] != Flight(t) && RegOk(s', y) {
      assert RegOk(s, y);
    }
    assert Frame(s, s', t, -1);
    forall x | x in s'.pc ensures TaskOk(s', x) {
      assert TaskOk(s, x);
      if x != t {
        OtherTask(s, s', t, -1, x);
      }
    }
    forall c | c in s.chans ensures ChanOk(s', c) {
      assert ChanOk(s, c);
      ContinuedSender(s, s', t, c);
    }
  }

  lemma ContinuedSender<T>(s: Sys<T>, s': Sys<T>, t: TaskId, c: ChanId)
    requires t in s.pc && s.pc[t].Resume? && !s.pc[t].k.OnRecv? && t !in s.regAt
    requires c in s.chans && ChanOk(s, c)
    requires s' == s.(pc := s.pc[t := User])
    ensures ChanOk(s', c)
  {
    var ch := s.chans[c];
    assert QueuesOk(s', c);
    forall r ensures InHand(s', c, r) == InHand(s, c, r) {
    }
  }

  // Wakeups

  ghost predicate WakeStep<T>(s: Sys<T>, s': Sys<T>, t: TaskId, y: TaskId, c: int) {
    && t in s.pc && s.pc[t].Waking? && s.pc[t].list != [] && y == s.pc[t].list[0]
    && s'.park == PW.Apply(s.park, PW.Ready(y))
    && s'.regAt == s.regAt - {y}
    && s'.pc == s.pc[t := WakingPc(s.pc[t].list[1..], s.pc[t].after)]
    && c == (if |s.pc[t].list| == 1 && s.pc[t].after.RecvDone? then s.pc[t].after.c else -1)
    && (c in s.chans ==> s'.chans == s.chans[c := RecvReturn(s.chans[c], t, s.pc[t].after.v)])
    && (c !in s.chans ==> s'.chans == s.chans)
  }

  lemma WakeTask<T>(s: Sys<T>, s': Sys<T>, t: TaskId, y: TaskId, c: int)
    requires WakeStep(s, s', t, y, c) && PW.Active(s.park, t) && TaskOk(s, t)
    ensures TaskOk(s', t)
  {
    var list := s.pc[t].list;
    forall x | x in list[1..] ensures x in list && x != y {
      var i :| 0 <= i < |list| - 1 && list[1..][i] == x;
      assert list[i + 1] == x;
    }
  }

  lemma WakeFrame<T>(s: Sys<T>, s': Sys<T>, t: TaskId, y: TaskId, c: int)
    requires WakeStep(s, s', t, y, c) && PW.Active(s.park, t)
    requires y in s.regAt && s.regAt[y] == Flight(t) && t !in s.regAt
    requires forall x :: x in s.regAt && s.regAt[x] == Flight(t) ==> x in s.pc[t].list
    ensures Frame(s, s', t, c) && ParkFrame(s.park, s'.park, t)
    ensures forall d :: d in s.chans && d != c ==> InHand(s', d, t) == InHand(s, d, t)
  {
  }

  lemma WakeQueues<T>(s: Sys<T>, s': Sys<T>, t: TaskId, y: TaskId, c: int)
    requires WakeStep(s, s', t, y, c) && y in s.regAt && s.regAt[y] == Flight(t)
    requires c in s.chans && QueuesOk(s, c)
    ensures QueuesOk(s', c)
  {
    var ch := s.chans[c];
    forall i | 0 <= i < |ch.sendq|
      ensures ch.sendq[i].id != y && WaitsFor(s', ch.sendq[i].id, OnSend(c, |ch.handed| + |ch.buf| + i))
    {
      assert WaitsFor(s, ch.sendq[i].id, OnSend(c, |ch.handed| + |ch.buf| + i));
    }
  }

  lemma WakeChan<T>(s: Sys<T>, s': Sys<T>, t: TaskId, y: TaskId, c: int)
    requires WakeStep(s, s', t, y, c) && y in s.regAt && s.regAt[y] == Flight(t)
    requires c in s.chans && ChanOk(s, c)
    ensures ChanOk(s', c)
  {
    var ch := s.chans[c];
    var v := s.pc[t].after.v;
    WakeQueues(s, s', t, y, c);
    assert t !in ch.delivered;
    forall r ensures Proj(s'.chans[c].returned, r) + InHand(s', c, r) == Proj(s'.chans[c].handed, r) {
      ProjAppend(ch.returned, (t, v), r);
      assert Proj(ch.returned, r) + InHand(s, c, r) == Proj(ch.handed, r);
    }
  }

  lemma WakeWaiters<T>(s: Sys<T>, s': Sys<T>, t: TaskId, y: TaskId, c: int, x: TaskId)
    requires WakeStep(s, s', t, y, c) && y in s.regAt && s.regAt[y] == Flight(t)
    requires WaitsOn(s, x, c) && WaitOk(s, x, s.pc[x].k)
    ensures WaitOk(s', x, s.pc[x].k)
  {
  }

  lemma Wakes<T>(s: Sys<T>, s': Sys<T>, t: TaskId, y: TaskId, c: int)
    requires Inv(s) && PW.Active(s.park, t) && WakeStep(s, s', t, y, c)
    ensures Inv(s')
  {
    assert TaskOk(s, t) && y in s.pc[t].list;
    assert t !in s.park.reg;
    forall x | x in s.regAt && s.regAt[x] == Flight(t) ensures x in s.pc[t].list {
      assert RegOk(s, x);
    }
    WakeTask(s, s', t, y, c);
    WakeFrame(s, s', t, y, c);
    PW.StepInv(s.park, PW.Ready(y));
    if c in s.chans {
      assert ChanOk(s, c);
      WakeChan(s, s', t, y, c);
    }
    forall x | WaitsOn(s, x, c) && x != t ensures WaitOk(s', x, s.pc[x].k) {
      assert TaskOk(s, x);
      WakeWaiters(s, s', t, y, c, x);
    }
    Preserved(s, s', t, c);
  }

  // Actions that leave all channels alone

  ghost predicate NoFlightOf<T>(s: Sys<T>, t: TaskId) {
    forall y :: y in s.regAt ==> s.regAt[y] != Flight(t)
  }

  lemma NotWakingNoFlight<T>(s: Sys<T>, t: TaskId)
    requires Inv(s) && t in s.pc && !s.pc[t].Waking?
    ensures NoFlightOf(s, t)
  {
    forall y | y in s.regAt ensures s.regAt[y] != Flight(t) {
      assert RegOk(s, y);
    }
  }

  /** Settling a park, an expired timer, the end of a task. */
  ghost predicate QuietStep<T>(s: Sys<T>, s': Sys<T>, t: TaskId) {
    && t in s.pc && s'.chans == s.chans
    && (|| (s.pc[t].Blocked? && t in s.park.parking && s'.pc == s.pc[t := Resume(s.pc[t].k)]
            && s'.regAt == s.regAt && s'.park == PW.Apply(s.park, PW.Commit(t)))
        || (t in s.regAt && s.regAt[t] == AtTimer && s'.pc == s.pc
            && s'.regAt == s.regAt - {t} && s'.park == PW.Apply(s.park, PW.Ready(t)))
        || (InUser(s, t) && t !in s.regAt && s'.pc == s.pc[t := Finished]
            && s'.regAt == s.regAt && s'.park == PW.Apply(s.park, PW.Finish(t))))
  }

  lemma QuietFrame<T>(s: Sys<T>, s': Sys<T>, t: TaskId)
    requires QuietStep(s, s', t) && NoFlightOf(s, t)
    requires TaskOk(s, t) && (t in s.regAt ==> RegOk(s, t))
    ensures Frame(s, s', t, -1) && ParkFrame(s.park, s'.park, t)
    ensures TaskOk(s', t) && (t in s'.regAt ==> RegOk(s', t))
    ensures forall d :: d in s.chans ==>
              KeepsWaiting(s, s', t, d) && InHand(s', d, t) == InHand(s, d, t)
  {
  }

  lemma QuietKeeps<T>(s: Sys<T>, s': Sys<T>, t: TaskId)
    requires Inv(s) && QuietStep(s, s', t)
    ensures Inv(s')
  {
    assert t in s.regAt ==> RegOk(s, t);
    assert TaskOk(s, t);
    NotWakingNoFlight(s, t);
    QuietFrame(s, s', t);
    if s.pc[t].Blocked? && s'.regAt == s.regAt {
      PW.StepInv(s.park, PW.Commit(t));
    } else if s'.pc == s.pc {
      PW.StepInv(s.park, PW.Ready(t));
    } else {
      PW.StepInv(s.park, PW.Finish(t));
    }
    Preserved(s, s', t, -1);
  }

  lemma SpawnKeeps<T>(s: Sys<T>, s': Sys<T>, t: TaskId)
    requires Inv(s) && InUser(s, t)
    requires s' == s.(park := PW.Apply(s.park, PW.Spawn), pc := s.pc[s.park.next := User])
    ensures Inv(s')
  {
    UserIsUnbound(s, t);
    PW.StepInv(s.park, PW.Spawn);
    assert TaskOk(s, t);
    assert s.park.next !in s.park.live && s.park.next !in s.pc;
    Preserved(s, s', t, -1);
  }

  lemma NewChanKeeps<T>(s: Sys<T>, s': Sys<T>, t: TaskId, c: ChanId, cap: nat)
    requires Inv(s) && InUser(s, t) && c !in s.chans
    requires s' == s.(chans := s.chans[c := WithCapacity(cap)])
    ensures Inv(s')
  {
    UserIsUnbound(s, t);
    assert TaskOk(s, t);
    NewChanOk(s, s', c, cap);
    Preserved(s, s', t, c);
  }

  lemma NewChanOk<T>(s: Sys<T>, s': Sys<T>, c: ChanId, cap: nat)
    requires Inv(s) && c !in s.chans
    requires s' == s.(chans := s.chans[c := WithCapacity(cap)])
    ensures ChanOk(s', c)
    ensures forall x :: !WaitsOn(s, x, c)
  {
    forall x ensures !WaitsOn(s, x, c) && InHand(s', c, x) == [] {
      if x in s.pc {
        assert TaskOk(s, x);
      }
    }
  }

  /** Every action of every task keeps the invariant. */
  lemma StepKeepsInv<T>(s: Sys<T>, a: Action<T>)
    requires Inv(s) && Enabled(s, a)
    ensures Inv(Apply(s, a))
  {
    var s' := Apply(s, a);
    match a {
      case Spawn(t) => SpawnKeeps(s, s', t);
      case NewChan(t, c, cap) => NewChanKeeps(s, s', t, c, cap);
      case Send(t, c, v) => SendKeeps(s, t, c, v);
      case Recv(t, c) => RecvKeeps(s, t, c);
      case Close(t, c) => CloseKeeps(s, t, c);
      case WakeNext(t) => WakeKeeps(s, t);
      case Sleep(t) => SleepKeeps(s, t);
      case Continue(t) => ContinueKeeps(s, t);
      case _ => QuietActionKeeps(s, a);
    }
  }

  lemma AbortKeeps<T>(s: Sys<T>)
    requires Inv(s)
    ensures Inv(s.(aborted := true))
  {
    var s' := s.(aborted := true);
    forall x | x in s'.pc ensures TaskOk(s', x) { AbortedTask(s, s', x); }
    forall x | x in s'.regAt ensures RegOk(s', x) { assert RegOk(s, x); }
    forall c | c in s'.chans ensures ChanOk(s', c) { AbortedChan(s, s', c); }
  }

  lemma AbortedTask<T>(s: Sys<T>, s': Sys<T>, x: TaskId)
    requires s' == s.(aborted := true) && x in s.pc && TaskOk(s, x)
    ensures TaskOk(s', x)
  {
  }

  lemma AbortedChan<T>(s: Sys<T>, s': Sys<T>, c: ChanId)
    requires s' == s.(aborted := true) && c in s.chans && ChanOk(s, c)
    ensures ChanOk(s', c)
  {
    assert QueuesOk(s', c);
    forall r ensures InHand(s', c, r) == InHand(s, c, r) {
    }
  }

  lemma SendKeeps<T>(s: Sys<T>, t: TaskId, c: ChanId, v: T)
    requires Inv(s) && Enabled(s, Action.Send(t, c, v))
    ensures Inv(Apply(s, Action.Send(t, c, v)))
  {
    var s' := Apply(s, Action.Send(t, c, v));
    SendIsStep(s, t, c, v);
    match SendLock(s.chans[c], t, v).1 {
      case SendPanics => AbortKeeps(s);
      case Delivered(r) => SendDelivers(s, s', t, c, v, r);
      case Buffered => SendBuffers(s, s', t, c, v);
      case SendParks => SendParksKeeps(s, s', t, c, v);
    }
  }

  /** The four ways of `send`. */
  lemma SendIsStep<T>(s: Sys<T>, t: TaskId, c: ChanId, v: T)
    requires Enabled(s, Action.Send(t, c, v))
    ensures var (s', o) := (Apply(s, Action.Send(t, c, v)), SendLock(s.chans[c], t, v).1);
      match o
      case SendPanics => s' == s.(aborted := true)
      case Delivered(r) => DeliverStep(s, s', t, c, v, r)
      case Buffered => BufferStep(s, s', t, c, v)
      case SendParks => SendParkStep(s, s', t, c, v)
  {
  }

  lemma RecvKeeps<T>(s: Sys<T>, t: TaskId, c: ChanId)
    requires Inv(s) && Enabled(s, Action.Recv(t, c))
    ensures Inv(Apply(s, Action.Recv(t, c)))
  {
    var s' := Apply(s, Action.Recv(t, c));
    RecvIsStep(s, t, c);
    match RecvLock(s.chans[c], t).1 {
      case RecvClosed =>
      case RecvPanics => AbortKeeps(s);
      case FromSender(x, v) => RecvTakes(s, s', t, c, x, v);
      case FromBuffer(v) => RecvUnbuffers(s, s', t, c, v);
      case RecvParks => RecvParksKeeps(s, s', t, c);
    }
  }

  lemma RecvIsStep<T>(s: Sys<T>, t: TaskId, c: ChanId)
    requires Enabled(s, Action.Recv(t, c))
    ensures var (s', o) := (Apply(s, Action.Recv(t, c)), RecvLock(s.chans[c], t).1);
      match o
      case RecvClosed => s' == s
      case RecvPanics => s' == s.(aborted := true)
      case FromSender(x, v) => TakeStep(s, s', t, c, x, v)
      case FromBuffer(v) => UnbufferStep(s, s', t, c, v)
      case RecvParks => RecvParkStep(s, s', t, c)
  {
  }

  lemma CloseKeeps<T>(s: Sys<T>, t: TaskId, c: ChanId)
    requires Inv(s) && Enabled(s, Action.Close(t, c))
    ensures Inv(Apply(s, Action.Close(t, c)))
  {
    CloseIsStep(s, t, c);
    match CloseLock(s.chans[c]).1 {
      case ClosePanics => AbortKeeps(s);
      case Closed(wake) => Closes(s, Apply(s, Action.Close(t, c)), t, c, wake);
    }
  }

  lemma CloseIsStep<T>(s: Sys<T>, t: TaskId, c: ChanId)
    requires Enabled(s, Action.Close(t, c))
    ensures var (s', o) := (Apply(s, Action.Close(t, c)), CloseLock(s.chans[c]).1);
      match o
      case ClosePanics => s' == s.(aborted := true)
      case Closed(wake) => CloseStep(s, s', t, c, wake)
  {
  }

  lemma WakeKeeps<T>(s: Sys<T>, t: TaskId)
    requires Inv(s) && Enabled(s, WakeNext(t))
    ensures Inv(Apply(s, WakeNext(t)))
  {
    assert TaskOk(s, t);
    var Waking(list, after) := s.pc[t];
    Wakes(s, Apply(s, WakeNext(t)), t, list[0],
          if |list| == 1 && after.RecvDone? then after.c else -1);
  }

  lemma SleepKeeps<T>(s: Sys<T>, t: TaskId)
    requires Inv(s) && Enabled(s, Sleep(t))
    ensures Inv(Apply(s, Sleep(t)))
  {
    UserIsUnbound(s, t);
    Parks(s, Apply(s, Sleep(t)), t, -1, OnTimer, AtTimer);
  }

  lemma ContinueKeeps<T>(s: Sys<T>, t: TaskId)
    requires Inv(s) && Enabled(s, Continue(t))
    ensures Inv(Apply(s, Continue(t)))
  {
    var s' := Apply(s, Continue(t));
    match s.pc[t].k {
      case OnRecv(c) => RecvContinues(s, s', t, c);
      case OnSend(c, n) =>
        if SendResumePanics(s.chans[c]) {
          AbortKeeps(s);
        } else {
          OtherContinues(s, s', t);
        }
      case OnTimer => OtherContinues(s, s', t);
    }
  }

  lemma QuietActionKeeps<T>(s: Sys<T>, a: Action<T>)
    requires Inv(s) && Enabled(s, a)
    requires a.Commit? || a.TimerWake? || a.Finish?
    ensures Inv(Apply(s, a))
  {
    if a.TimerWake? {
      assert RegOk(s, a.t);
    } else if a.Finish? {
      UserIsUnbound(s, a.t);
    }
    QuietKeeps(s, Apply(s, a), a.t);
  }

  // ---- Runs ---------------------------------------------------------------------------

  lemma {:induction false} RunKeepsInv<T>(s: Sys<T>, acts: seq<Action<T>>)
    requires Inv(s) && Run(s, acts)
    ensures Inv(Exec(s, acts))
  {
    if acts != [] {
      var k := |acts| - 1;
      RunKeepsInv(s, acts[..k]);
      StepKeepsInv(Exec(s, acts[..k]), acts[k]);
    }
  }

  lemma ReachableInv<T(!new)>(s: Sys<T>)
    requires Reachable(s)
    ensures Inv(s)
  {
    var n, caps, acts :| Reaches(s, n, caps, acts);
    InitInv<T>(n, caps);
    RunKeepsInv(Init(n, caps), acts);
  }
}
