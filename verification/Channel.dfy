/** One channel of channel.rs.

    `ChanState` is the value of a channel: the fields behind its mutex, and the history
    of what passed through it.  Each operation of the source is cut at its lock
    boundaries; the functions below say what one lock-protected section does, and the
    methods of class `Chan` do it in place. */
module Channel {
  import opened Common

  datatype SendWaiter<T> = SendWaiter(id: TaskId, data: T)

  datatype ChanState<T> = ChanState(
    cap: nat,
    buf: seq<T>,
    sendq: seq<SendWaiter<T>>,
    recvq: seq<TaskId>,
    delivered: map<TaskId, T>,
    closed: bool,
    // History: values accepted by `send`, in lock order; values given to a receiver, in
    // hand-off order; values returned by `recv`; values thrown away by `close`.
    sent: seq<T>,
    handed: seq<(TaskId, T)>,
    returned: seq<(TaskId, T)>,
    lost: seq<T>
  )

  datatype SendOutcome = SendPanics | Delivered(receiver: TaskId) | Buffered | SendParks

  datatype RecvOutcome<T> =
    | RecvClosed
    | FromSender(sender: TaskId, value: T)
    | FromBuffer(value: T)
    | RecvParks
    | RecvPanics   // the `unwrap` on an empty buffer

  datatype CloseOutcome = ClosePanics | Closed(wake: seq<TaskId>)

  function WithCapacity<T>(cap: nat): ChanState<T> {
    ChanState(cap, [], [], [], map[], false, [], [], [], [])
  }

  function Data<T>(q: seq<SendWaiter<T>>): seq<T> {
    seq(|q|, i requires 0 <= i < |q| => q[i].data)
  }

  function Ids<T>(q: seq<SendWaiter<T>>): seq<TaskId> {
    seq(|q|, i requires 0 <= i < |q| => q[i].id)
  }

  function Vals<T>(h: seq<(TaskId, T)>): seq<T> {
    seq(|h|, i requires 0 <= i < |h| => h[i].1)
  }

  // ---- The lock-protected sections --------------------------------------------------

  /** `send` up to its first unlock, run by task `t`. */
  function SendLock<T>(ch: ChanState<T>, t: TaskId, v: T): (ChanState<T>, SendOutcome) {
    if ch.closed then
      (ch, SendPanics)
    else if ch.recvq != [] then
      (ch.(recvq := ch.recvq[1..], delivered := ch.delivered[ch.recvq[0] := v],
           sent := ch.sent + [v], handed := ch.handed + [(ch.recvq[0], v)]),
       Delivered(ch.recvq[0]))
    else if |ch.buf| < ch.cap then
      (ch.(buf := ch.buf + [v], sent := ch.sent + [v]), Buffered)
    else
      (ch.(sendq := ch.sendq + [SendWaiter(t, v)], sent := ch.sent + [v]), SendParks)
  }

  /** `recv` up to its first unlock, run by task `t`. */
  function RecvLock<T>(ch: ChanState<T>, t: TaskId): (ChanState<T>, RecvOutcome<T>) {
    if ch.closed && ch.sendq == [] && ch.buf == [] then
      (ch, RecvClosed)
    else if ch.sendq != [] then
      var sender := ch.sendq[0];
      var ch1 := ch.(sendq := ch.sendq[1..]);
      if ch.cap == 0 then
        (ch1.(handed := ch.handed + [(t, sender.data)]), FromSender(sender.id, sender.data))
      else if ch.buf == [] then
        (ch1, RecvPanics)
      else
        (ch1.(buf := ch.buf[1..] + [sender.data], handed := ch.handed + [(t, ch.buf[0])]),
         FromSender(sender.id, ch.buf[0]))
    else if ch.buf != [] then
      (ch.(buf := ch.buf[1..], handed := ch.handed + [(t, ch.buf[0])],
           returned := ch.returned + [(t, ch.buf[0])]),
       FromBuffer(ch.buf[0]))
    else if ch.closed then
      (ch, RecvClosed)
    else
      (ch.(recvq := ch.recvq + [t]), RecvParks)
  }

  /** The end of a `recv` that first had to wake a parked sender. */
  function RecvReturn<T>(ch: ChanState<T>, t: TaskId, v: T): ChanState<T> {
    ch.(returned := ch.returned + [(t, v)])
  }

  /** `recv` after its `gopark` came back. */
  function RecvResume<T>(ch: ChanState<T>, t: TaskId): (ChanState<T>, Option<T>) {
    if t in ch.delivered
    then (ch.(delivered := ch.delivered - {t}, returned := ch.returned + [(t, ch.delivered[t])]),
          Some(ch.delivered[t]))
    else (ch, None)
  }

  /** `send` after its `gopark` came back: does it panic? */
  predicate SendResumePanics<T>(ch: ChanState<T>) {
    ch.closed
  }

  /** The locked section of `close`; the outcome lists who is to be woken, in order. */
  function CloseLock<T>(ch: ChanState<T>): (ChanState<T>, CloseOutcome) {
    if ch.closed then
      (ch, ClosePanics)
    else
      (ch.(closed := true, recvq := [], sendq := [], lost := ch.lost + Data(ch.sendq)),
       Closed(ch.recvq + Ids(ch.sendq)))
  }

  // ---- Invariants of one channel ------------------------------------------------------

  ghost predicate Shape<T>(ch: ChanState<T>) {
    && |ch.buf| <= ch.cap
    && (ch.recvq != [] ==> ch.buf == [] && ch.sendq == [])
    && (ch.sendq != [] ==> |ch.buf| == ch.cap)
    && (ch.closed ==> ch.recvq == [] && ch.sendq == [])
    && NoDup(ch.recvq)
    && NoDup(Ids(ch.sendq))
    && (forall r :: r in ch.recvq ==> r !in ch.delivered)
  }

  /** The values still inside the channel, in the order they will be handed out. */
  function Queued<T>(ch: ChanState<T>): seq<T> {
    ch.buf + Data(ch.sendq)
  }

  ghost predicate Fifo<T>(ch: ChanState<T>) {
    && ch.sent == Vals(ch.handed) + Queued(ch) + ch.lost
    && (!ch.closed ==> ch.lost == [])
  }

  ghost predicate ChanInv<T>(ch: ChanState<T>) {
    Shape(ch) && Fifo(ch)
  }

  /** A task that is about to park must not be queued here already, nor own a
      value it has not collected. */
  ghost predicate Fresh<T>(ch: ChanState<T>, t: TaskId) {
    t !in ch.recvq && t !in Ids(ch.sendq) && t !in ch.delivered
  }

  lemma ValsAppend<T>(h: seq<(TaskId, T)>, x: (TaskId, T))
    ensures Vals(h + [x]) == Vals(h) + [x.1]
  {
  }

  lemma DataAppend<T>(q: seq<SendWaiter<T>>, w: SendWaiter<T>)
    ensures Data(q + [w]) == Data(q) + [w.data] && Ids(q + [w]) == Ids(q) + [w.id]
  {
  }

  lemma DataHead<T>(q: seq<SendWaiter<T>>)
    requires q != []
    ensures Data(q) == [q[0].data] + Data(q[1..]) && Ids(q) == [q[0].id] + Ids(q[1..])
  {
  }

  lemma SendKeepsInv<T>(ch: ChanState<T>, t: TaskId, v: T)
    requires ChanInv(ch) && Fresh(ch, t)
    ensures ChanInv(SendLock(ch, t, v).0)
  {
    var (ch', o) := SendLock(ch, t, v);
    match o
    case SendPanics =>
    case Delivered(r) =>
      ValsAppend(ch.handed, (r, v));
      assert Data(ch.sendq) == [];
      assert ch'.sent == Vals(ch'.handed) + Queued(ch') + ch'.lost;
    case Buffered =>
      assert ch'.sent == Vals(ch'.handed) + Queued(ch') + ch'.lost;
    case SendParks =>
      DataAppend(ch.sendq, SendWaiter(t, v));
      assert ch'.sent == Vals(ch'.handed) + Queued(ch') + ch'.lost;
  }

  /** Besides the invariant: the `unwrap` of the refill path never meets an empty
      buffer. */
  lemma RecvKeepsInv<T>(ch: ChanState<T>, t: TaskId)
    requires ChanInv(ch) && Fresh(ch, t)
    ensures ChanInv(RecvLock(ch, t).0)
    ensures !RecvLock(ch, t).1.RecvPanics?
  {
    var (ch', o) := RecvLock(ch, t);
    if ch.sendq != [] {
      DataHead(ch.sendq);
      assert Ids(ch.sendq)[1..] == Ids(ch'.sendq);
      HandOver(ch, ch', t, if ch.cap == 0 then ch.sendq[0].data else ch.buf[0]);
    } else if ch.buf != [] {
      HandOver(ch, ch', t, ch.buf[0]);
    }
  }

  /** Handing the head of the queue to a receiver keeps the history equation. */
  lemma HandOver<T>(ch: ChanState<T>, ch': ChanState<T>, t: TaskId, v: T)
    requires Fifo(ch)
    requires Queued(ch) == [v] + Queued(ch')
    requires ch'.handed == ch.handed + [(t, v)]
    requires ch'.sent == ch.sent && ch'.lost == ch.lost && ch'.closed == ch.closed
    ensures Fifo(ch')
  {
    ValsAppend(ch.handed, (t, v));
    assert ch'.sent == Vals(ch.handed) + [v] + Queued(ch') + ch'.lost;
  }

  lemma CloseKeepsInv<T>(ch: ChanState<T>)
    requires ChanInv(ch)
    ensures ChanInv(CloseLock(ch).0)
  {
    var (ch', o) := CloseLock(ch);
    assert Data(ch'.sendq) == [];
    assert ch'.sent == Vals(ch'.handed) + Queued(ch') + ch'.lost;
  }

  // ---- Refinement of an atomic queue -------------------------------------------------

  /** The queue a channel implements: unbounded, because a blocked sender's value is
      already in line. */
  datatype Queue<T> = Queue(items: seq<T>, closed: bool)

  datatype QueueOp<T> = Enqueue(v: T) | Dequeue(v: T) | Shut(dropped: nat)

  ghost predicate CanDo<T>(q: Queue<T>, op: QueueOp<T>) {
    match op
    case Enqueue(v) => !q.closed
    case Dequeue(v) => q.items != [] && q.items[0] == v
    case Shut(n) => !q.closed && n <= |q.items|
  }

  ghost function Do<T>(q: Queue<T>, op: QueueOp<T>): Queue<T>
    requires CanDo(q, op)
  {
    match op
    case Enqueue(v) => q.(items := q.items + [v])
    case Dequeue(v) => q.(items := q.items[1..])
    case Shut(n) => Queue(q.items[..|q.items| - n], true)
  }

  ghost function Abstract<T>(ch: ChanState<T>): Queue<T> {
    Queue(Queued(ch), ch.closed)
  }

  /** Every `send` section that does not panic enqueues its value; handing it straight
      to a parked receiver is an enqueue on the empty queue followed by a dequeue. */
  lemma SendRefines<T>(ch: ChanState<T>, t: TaskId, v: T)
    requires ChanInv(ch)
    ensures var (ch', o) := SendLock(ch, t, v);
      && (o.SendPanics? <==> !CanDo(Abstract(ch), Enqueue(v)))
      && (o.SendPanics? ==> ch' == ch)
      && (o.Buffered? || o.SendParks? ==> Abstract(ch') == Do(Abstract(ch), Enqueue(v)))
      && (o.Delivered? ==>
            var mid := Do(Abstract(ch), Enqueue(v));
            CanDo(mid, Dequeue(v)) && Abstract(ch') == Do(mid, Dequeue(v)))
  {
    var (ch', o) := SendLock(ch, t, v);
    if o.SendParks? {
      DataAppend(ch.sendq, SendWaiter(t, v));
      assert Queued(ch') == Queued(ch) + [v];
    } else if o.Buffered? {
      assert ch.sendq == [];
      assert Queued(ch') == Queued(ch) + [v];
    }
  }

  /** Every `recv` section that obtains a value dequeues exactly that value, whichever
      of the three paths it takes; it reports "closed" only on a closed, empty queue,
      and parks only on an open, empty one. */
  lemma RecvRefines<T>(ch: ChanState<T>, t: TaskId)
    requires ChanInv(ch)
    ensures var (ch', o) := RecvLock(ch, t);
      && (o.FromSender? || o.FromBuffer? ==>
            && CanDo(Abstract(ch), Dequeue(o.value))
            && Abstract(ch') == Do(Abstract(ch), Dequeue(o.value)))
      && (o.RecvClosed? <==> Abstract(ch) == Queue([], true))
      && (o.RecvParks? <==> Abstract(ch) == Queue([], false))
      && (o.RecvClosed? || o.RecvParks? ==> Abstract(ch') == Abstract(ch))
  {
    var (ch', o) := RecvLock(ch, t);
    if ch.sendq != [] {
      DataHead(ch.sendq);
      assert Queued(ch') == Queued(ch)[1..];
    } else if ch.buf != [] {
      assert Queued(ch') == Queued(ch)[1..];
    }
  }

  /** `close` shuts the queue and drops exactly the values of the parked senders. */
  lemma CloseRefines<T>(ch: ChanState<T>)
    requires ChanInv(ch)
    ensures var (ch', o) := CloseLock(ch);
      && (o.ClosePanics? <==> ch.closed)
      && (o.Closed? ==>
            && CanDo(Abstract(ch), Shut(|ch.sendq|))
            && Abstract(ch') == Do(Abstract(ch), Shut(|ch.sendq|))
            && Queued(ch') == ch.buf
            && ch'.lost == Data(ch.sendq)
            && o.wake == ch.recvq + Ids(ch.sendq) && NoDup(o.wake))
  {
    var (ch', o) := CloseLock(ch);
    if o.Closed? {
      assert Queued(ch') == ch.buf;
      assert Queued(ch)[..|ch.buf|] == ch.buf;
    }
  }

  ghost predicate CanDoAll<T>(q: Queue<T>, ops: seq<QueueOp<T>>)
    decreases |ops|, 0
  {
    ops == [] || (var k := |ops| - 1; CanDoAll(q, ops[..k]) && CanDo(DoAll(q, ops[..k]), ops[k]))
  }

  ghost function DoAll<T>(q: Queue<T>, ops: seq<QueueOp<T>>): Queue<T>
    requires CanDoAll(q, ops)
    decreases |ops|, 1
  {
    if ops == [] then q else Do(DoAll(q, ops[..|ops| - 1]), ops[|ops| - 1])
  }

  /** The values that operations put in and take out. */
  ghost function Put<T>(ops: seq<QueueOp<T>>): seq<T> {
    if ops == [] then []
    else
      var (rest, op) := (Put(ops[..|ops| - 1]), ops[|ops| - 1]);
      if op.Enqueue? then rest + [op.v] else rest
  }

  ghost function Taken<T>(ops: seq<QueueOp<T>>): seq<T> {
    if ops == [] then []
    else
      var (rest, op) := (Taken(ops[..|ops| - 1]), ops[|ops| - 1]);
      if op.Dequeue? then rest + [op.v] else rest
  }

  lemma DoOne<T>(q: Queue<T>, ops: seq<QueueOp<T>>, op: QueueOp<T>)
    requires CanDoAll(q, ops) && CanDo(DoAll(q, ops), op)
    ensures CanDoAll(q, ops + [op]) && DoAll(q, ops + [op]) == Do(DoAll(q, ops), op)
    ensures Put(ops + [op]) == if op.Enqueue? then Put(ops) + [op.v] else Put(ops)
    ensures Taken(ops + [op]) == if op.Dequeue? then Taken(ops) + [op.v] else Taken(ops)
  {
    assert (ops + [op])[..|ops|] == ops;
  }

  /** What happened to the queue from its creation up to `ch` amounts to `ops`. */
  ghost predicate AmountsTo<T>(ops: seq<QueueOp<T>>, ch: ChanState<T>) {
    && CanDoAll(Queue([], false), ops) && DoAll(Queue([], false), ops) == Abstract(ch)
    && Put(ops) == ch.sent && Taken(ops) == Vals(ch.handed)
  }

  function SendOps<T>(o: SendOutcome, v: T): seq<QueueOp<T>> {
    match o
    case SendPanics => []
    case Delivered(_) => [Enqueue(v), Dequeue(v)]
    case _ => [Enqueue(v)]
  }

  function RecvOps<T>(o: RecvOutcome<T>): seq<QueueOp<T>> {
    if o.FromSender? || o.FromBuffer? then [Dequeue(o.value)] else []
  }

  lemma SendAmounts<T>(ops: seq<QueueOp<T>>, ch: ChanState<T>, t: TaskId, v: T)
    requires ChanInv(ch) && AmountsTo(ops, ch)
    ensures AmountsTo(ops + SendOps(SendLock(ch, t, v).1, v), SendLock(ch, t, v).0)
  {
    SendRefines(ch, t, v);
    var (ch', o) := SendLock(ch, t, v);
    match o
    case SendPanics => assert ops + [] == ops;
    case Delivered(r) => DeliveryAmounts(ops, ch, ch', r, v);
    case _ => DoOne(Queue([], false), ops, Enqueue(v));
  }

  lemma DeliveryAmounts<T>(ops: seq<QueueOp<T>>, ch: ChanState<T>, ch': ChanState<T>, r: TaskId, v: T)
    requires AmountsTo(ops, ch) && CanDo(Abstract(ch), Enqueue(v))
    requires var mid := Do(Abstract(ch), Enqueue(v));
      CanDo(mid, Dequeue(v)) && Abstract(ch') == Do(mid, Dequeue(v))
    requires ch'.sent == ch.sent + [v] && ch'.handed == ch.handed + [(r, v)]
    ensures AmountsTo(ops + [Enqueue(v), Dequeue(v)], ch')
  {
    DoOne(Queue([], false), ops, Enqueue(v));
    DoOne(Queue([], false), ops + [Enqueue(v)], Dequeue(v));
    assert ops + [Enqueue(v), Dequeue(v)] == ops + [Enqueue(v)] + [Dequeue(v)];
    ValsAppend(ch.handed, (r, v));
  }

  lemma RecvAmounts<T>(ops: seq<QueueOp<T>>, ch: ChanState<T>, t: TaskId)
    requires ChanInv(ch) && Fresh(ch, t) && AmountsTo(ops, ch)
    ensures AmountsTo(ops + RecvOps(RecvLock(ch, t).1), RecvLock(ch, t).0)
  {
    RecvRefines(ch, t);
    RecvKeepsInv(ch, t);
    var (ch', o) := RecvLock(ch, t);
    if o.FromSender? || o.FromBuffer? {
      DoOne(Queue([], false), ops, Dequeue(o.value));
      ValsAppend(ch.handed, (t, o.value));
    } else {
      assert ops + [] == ops;
    }
  }

  lemma CloseAmounts<T>(ops: seq<QueueOp<T>>, ch: ChanState<T>)
    requires ChanInv(ch) && AmountsTo(ops, ch) && !ch.closed
    ensures AmountsTo(ops + [Shut(|ch.sendq|)], CloseLock(ch).0)
  {
    CloseRefines(ch);
    DoOne(Queue([], false), ops, Shut(|ch.sendq|));
  }

  // ---- What each receiver gets --------------------------------------------------------

  /** The part of a log that concerns receiver `r`. */
  ghost function Proj<T>(h: seq<(TaskId, T)>, r: TaskId): seq<T> {
    if h == [] then []
    else if h[|h| - 1].0 == r then Proj(h[..|h| - 1], r) + [h[|h| - 1].1]
    else Proj(h[..|h| - 1], r)
  }

  lemma ProjAppend<T>(h: seq<(TaskId, T)>, x: (TaskId, T), r: TaskId)
    ensures Proj(h + [x], r) == if x.0 == r then Proj(h, r) + [x.1] else Proj(h, r)
  {
    assert (h + [x])[..|h|] == h;
  }

  lemma {:induction false} ProjCount<T>(h: seq<(TaskId, T)>, r: TaskId, v: T)
    ensures multiset(Proj(h, r))[v] == multiset(h)[(r, v)]
  {
    if h != [] {
      var n := |h| - 1;
      assert h == h[..n] + [h[n]];
      ProjCount(h[..n], r, v);
    }
  }

  /** Logs that agree receiver by receiver contain the same hand-offs. */
  lemma SameProjections<T>(a: seq<(TaskId, T)>, b: seq<(TaskId, T)>)
    requires forall r :: Proj(a, r) == Proj(b, r)
    ensures multiset(a) == multiset(b)
  {
    forall x ensures multiset(a)[x] == multiset(b)[x] {
      ProjCount(a, x.0, x.1);
      ProjCount(b, x.0, x.1);
    }
  }

  lemma {:induction false} ProjAll<T>(h: seq<(TaskId, T)>, r: TaskId)
    requires forall i :: 0 <= i < |h| ==> h[i].0 == r
    ensures Proj(h, r) == Vals(h)
  {
    if h != [] {
      var n := |h| - 1;
      ProjAll(h[..n], r);
      ValsAppend(h[..n], h[n]);
      assert h == h[..n] + [h[n]];
    }
  }

  // ---- The object ---------------------------------------------------------------------

  /** `ChanInner` behind its mutex.  One method per locked section. */
  class Chan<T> {
    var buf: seq<T>
    const cap: nat
    var sendq: seq<SendWaiter<T>>
    var recvq: seq<TaskId>
    var delivered: map<TaskId, T>
    var closed: bool
    ghost var sent: seq<T>
    ghost var handed: seq<(TaskId, T)>
    ghost var returned: seq<(TaskId, T)>
    ghost var lost: seq<T>

    ghost function Model(): ChanState<T>
      reads this
    {
      ChanState(cap, buf, sendq, recvq, delivered, closed, sent, handed, returned, lost)
    }

    constructor (cap: nat)
      ensures Model() == WithCapacity(cap) && this.cap == cap
      ensures ChanInv(Model())
    {
      this.cap := cap;
      buf, sendq, recvq, delivered, closed := [], [], [], map[], false;
      sent, handed, returned, lost := [], [], [], [];
    }

    method LockSend(t: TaskId, v: T) returns (o: SendOutcome)
      requires ChanInv(Model()) && Fresh(Model(), t)
      modifies this
      ensures (Model(), o) == SendLock(old(Model()), t, v)
      ensures ChanInv(Model())
    {
      SendKeepsInv(Model(), t, v);
      if closed {
        return SendPanics;
      }
      sent := sent + [v];
      if recvq != [] {
        var receiver := recvq[0];
        recvq := recvq[1..];
        delivered := delivered[receiver := v];
        handed := handed + [(receiver, v)];
        return Delivered(receiver);
      }
      if |buf| < cap {
        buf := buf + [v];
        return Buffered;
      }
      sendq := sendq + [SendWaiter(t, v)];
      return SendParks;
    }

    method LockRecv(t: TaskId) returns (o: RecvOutcome<T>)
      requires ChanInv(Model()) && Fresh(Model(), t)
      modifies this
      ensures (Model(), o) == RecvLock(old(Model()), t)
      ensures ChanInv(Model()) && !o.RecvPanics?
    {
      RecvKeepsInv(Model(), t);
      if closed && sendq == [] && buf == [] {
        return RecvClosed;
      }
      if sendq != [] {
        var sender := sendq[0];
        sendq := sendq[1..];
        var data;
        if cap == 0 {
          data := sender.data;
        } else {
          data := buf[0];
          buf := buf[1..] + [sender.data];
        }
        handed := handed + [(t, data)];
        return FromSender(sender.id, data);
      }
      if buf != [] {
        var data := buf[0];
        buf := buf[1..];
        handed, returned := handed + [(t, data)], returned + [(t, data)];
        return FromBuffer(data);
      }
      if closed {
        return RecvClosed;
      }
      recvq := recvq + [t];
      return RecvParks;
    }

    method ResumeRecv(t: TaskId) returns (r: Option<T>)
      requires ChanInv(Model())
      modifies this`delivered, this`returned
      ensures (Model(), r) == RecvResume(old(Model()), t)
      ensures ChanInv(Model()) && t !in delivered
    {
      if t in delivered {
        r := Some(delivered[t]);
        returned := returned + [(t, delivered[t])];
        delivered := delivered - {t};
      } else {
        r := None;
      }
    }

    method LockClose() returns (o: CloseOutcome)
      requires ChanInv(Model())
      modifies this
      ensures (Model(), o) == CloseLock(old(Model()))
      ensures ChanInv(Model())
    {
      CloseKeepsInv(Model());
      if closed {
        return ClosePanics;
      }
      closed := true;
      var receivers := recvq;
      recvq := [];
      var senders := Ids(sendq);
      lost := lost + Data(sendq);
      sendq := [];
      return Closed(receivers + senders);
    }
  }
}
