/** Workers and channels together: the tasks that Workers schedules are those whose channel
    operations ChannelSystem describes.  Each layer's assumptions about the other are
    discharged here, and their guarantees combined. */
module Runtime {
  import opened Common
  import PW = ParkWake
  import Channel
  import C = ChannelSystem
  import CI = ChannelInvariant
  import CT = ChannelTheorems
  import W = Workers
  import WI = WorkersInvariant
  import WT = WorkersTheorems

  datatype State<T> = State(w: W.State, c: C.Sys<T>)

  /** Either the task running on worker `on` takes a step of its program (for a sleep,
      asking for wake time `wake`), or the scheduler takes one of its own. */
  datatype Step<T> = TaskStep(on: nat, b: C.Action<T>, wake: int) | SchedStep(a: W.Action)

  /** What the scheduler sees of a task's step, if anything. */
  function Companion<T(==)>(c: C.Sys<T>, on: nat, b: C.Action<T>, wake: int): Option<W.Action>
    requires C.Enabled(c, b)
  {
    match b
    case Spawn(_) => Some(W.Spawn(on))
    case Send(t, d, v) => if Channel.SendLock(c.chans[d], t, v).1.SendParks? then Some(W.Enlist(on)) else None
    case Recv(t, d) => if Channel.RecvLock(c.chans[d], t).1.RecvParks? then Some(W.Enlist(on)) else None
    case WakeNext(t) => Some(W.Rouse(on, c.pc[t].list[0]))
    case Sleep(_) => Some(W.Sleep(on, wake))
    case Finish(_) => Some(W.Finish(on))
    case _ => None
  }

  predicate OwnStep(a: W.Action) {
    !a.Spawn? && !a.Enlist? && !a.Rouse? && !a.Sleep? && !a.Finish?
  }

  /** What the scheduler's own step means for the task it concerns. */
  function Effect<T(==)>(w: W.State, a: W.Action): Option<C.Action<T>>
    requires W.Enabled(w, a)
  {
    match a
    case Settle(i) => if W.Cur(w, i).state == Waiting then Some(C.Commit(W.Cur(w, i).id)) else None
    case FireReady(i) => Some(C.TimerWake(w.ws[i].phase.t))
    case _ => None
  }

  predicate Enabled<T(==)>(s: State<T>, x: Step<T>) {
    !s.c.aborted &&
    match x
    case TaskStep(on, b, _) =>
      W.Acts(s.w, on) && C.Enabled(s.c, b) && !b.Commit? && !b.TimerWake? && W.Cur(s.w, on).id == b.t
    case SchedStep(a) => OwnStep(a) && W.Enabled(s.w, a)
  }

  ghost predicate Inv<T>(s: State<T>) {
    && W.Inv(s.w) && C.Inv(s.c)
    && s.w.park == s.c.park
    && (forall x :: x in s.w.sleep <==> x in s.c.regAt && s.c.regAt[x] == C.AtTimer)
  }

  /** Channels keep to the discipline the scheduler asks for: whatever a task does next,
      the scheduler's part of it is enabled, with the same protocol label. */
  lemma TaskStepMatched<T>(s: State<T>, x: Step<T>)
    requires Inv(s) && Enabled(s, x) && x.TaskStep?
    ensures var a := Companion(s.c, x.on, x.b, x.wake);
      && (a.Some? ==> W.Enabled(s.w, a.value) && W.LabelOf(s.w, a.value) == C.LabelOf(s.c, x.b))
      && (a.None? ==> C.LabelOf(s.c, x.b) == PW.Silent)
  {
    if x.b.WakeNext? {
      WakeMatched(s, x);
    } else {
      OtherMatched(s.w, s.c, x.on, x.b, x.wake);
    }
  }

  lemma WakeMatched<T>(s: State<T>, x: Step<T>)
    requires Inv(s) && Enabled(s, x) && x.TaskStep? && x.b.WakeNext?
    ensures var a := Companion(s.c, x.on, x.b, x.wake);
      a.Some? && W.Enabled(s.w, a.value) && W.LabelOf(s.w, a.value) == C.LabelOf(s.c, x.b)
  {
    assert C.TaskOk(s.c, x.b.t);
    assert s.c.pc[x.b.t].list[0] in s.c.pc[x.b.t].list;
  }

  lemma OtherMatched<T>(w: W.State, c: C.Sys<T>, on: nat, b: C.Action<T>, wake: int)
    requires W.Acts(w, on) && C.Enabled(c, b) && W.Cur(w, on).id == b.t
    requires !b.Commit? && !b.TimerWake? && !b.WakeNext?
    ensures var a := Companion(c, on, b, wake);
      && (a.Some? ==> W.Enabled(w, a.value) && W.LabelOf(w, a.value) == C.LabelOf(c, b))
      && (a.None? ==> C.LabelOf(c, b) == PW.Silent)
  {
  }

  /** Conversely, the scheduler's own steps are steps its tasks are ready for. */
  lemma SchedStepMatched<T>(s: State<T>, x: Step<T>)
    requires Inv(s) && Enabled(s, x) && x.SchedStep?
    ensures var b := Effect<T>(s.w, x.a);
      && (b.Some? ==> C.Enabled(s.c, b.value) && C.LabelOf(s.c, b.value) == W.LabelOf(s.w, x.a))
      && (b.None? ==> W.LabelOf(s.w, x.a) == PW.Silent)
  {
    var a := x.a;
    if a.Settle? {
      assert W.WorkerOk(s.w, a.w);
      var t := W.Cur(s.w, a.w).id;
      if W.Cur(s.w, a.w).state == Waiting {
        assert t in s.c.park.live;
        assert C.TaskOk(s.c, t);
      }
    } else if a.FireReady? {
      assert W.PollerOk(s.w, a.w);
    }
  }

  function Apply<T(==)>(s: State<T>, x: Step<T>): State<T>
    requires Enabled(s, x)
  {
    match x
    case TaskStep(on, b, wake) =>
      var a := Companion(s.c, on, b, wake);
      State(if a.Some? && W.Enabled(s.w, a.value) then W.Apply(s.w, a.value) else s.w, C.Apply(s.c, b))
    case SchedStep(a) =>
      var b := Effect<T>(s.w, a);
      State(W.Apply(s.w, a), if b.Some? && C.Enabled(s.c, b.value) then C.Apply(s.c, b.value) else s.c)
  }

  // ---- The joint invariant ---------------------------------------------------------------

  predicate OnTimerHeap<T>(c: C.Sys<T>, x: TaskId) {
    x in c.regAt && c.regAt[x] == C.AtTimer
  }

  lemma TimersOfTasks<T>(c: C.Sys<T>, b: C.Action<T>, x: TaskId)
    requires C.Inv(c) && C.Enabled(c, b)
    ensures OnTimerHeap(C.Apply(c, b), x)
       <==> (OnTimerHeap(c, x) || (b.Sleep? && x == b.t)) && !(b.TimerWake? && x == b.t)
  {
    if b.Send? {
      TimersOfSend(c, b, x);
    } else if b.Recv? {
      TimersOfRecv(c, b, x);
    } else if b.Close? {
      TimersOfClose(c, b, x);
    } else {
      assert b.WakeNext? ==> C.TaskOk(c, b.t);
      TimersOfRest(c, b, x);
    }
  }

  lemma TimersOfRest<T>(c: C.Sys<T>, b: C.Action<T>, x: TaskId)
    requires C.Enabled(c, b) && !b.Send? && !b.Recv? && !b.Close?
    requires b.WakeNext? ==> C.TaskOk(c, b.t)
    ensures OnTimerHeap(C.Apply(c, b), x)
       <==> (OnTimerHeap(c, x) || (b.Sleep? && x == b.t)) && !(b.TimerWake? && x == b.t)
  {
    if b.WakeNext? {
      assert c.pc[b.t].list[0] in c.pc[b.t].list;
    }
  }

  lemma TimersOfSend<T>(c: C.Sys<T>, b: C.Action<T>, x: TaskId)
    requires C.Inv(c) && C.Enabled(c, b) && b.Send?
    ensures OnTimerHeap(C.Apply(c, b), x) <==> OnTimerHeap(c, x)
  {
    assert C.QueuesOk(c, b.c) by {
      assert C.ChanOk(c, b.c);
    }
    CI.UserIsUnbound(c, b.t);
    SendMovesNoTimer(c, b, x);
  }

  lemma SendMovesNoTimer<T>(c: C.Sys<T>, b: C.Action<T>, x: TaskId)
    requires C.Enabled(c, b) && b.Send? && C.QueuesOk(c, b.c) && b.t !in c.regAt
    ensures OnTimerHeap(C.Apply(c, b), x) <==> OnTimerHeap(c, x)
  {
    var q := c.chans[b.c].recvq;
    assert q != [] ==> q[0] in q;
  }

  lemma TimersOfRecv<T>(c: C.Sys<T>, b: C.Action<T>, x: TaskId)
    requires C.Inv(c) && C.Enabled(c, b) && b.Recv?
    ensures OnTimerHeap(C.Apply(c, b), x) <==> OnTimerHeap(c, x)
  {
    assert C.QueuesOk(c, b.c) by {
      assert C.ChanOk(c, b.c);
    }
    CI.UserIsUnbound(c, b.t);
    RecvMovesNoTimer(c, b, x);
  }

  lemma RecvMovesNoTimer<T>(c: C.Sys<T>, b: C.Action<T>, x: TaskId)
    requires C.Enabled(c, b) && b.Recv? && C.QueuesOk(c, b.c) && b.t !in c.regAt
    ensures OnTimerHeap(C.Apply(c, b), x) <==> OnTimerHeap(c, x)
  {
    var q := c.chans[b.c].sendq;
    assert q != [] ==> c.regAt[q[0].id] == C.AtSendq(b.c);
  }

  lemma TimersOfClose<T>(c: C.Sys<T>, b: C.Action<T>, x: TaskId)
    requires C.Inv(c) && C.Enabled(c, b) && b.Close?
    ensures OnTimerHeap(C.Apply(c, b), x) <==> OnTimerHeap(c, x)
  {
    assert C.ChanOk(c, b.c);
    CT.QueuedOnce(c, x);
    var ch := c.chans[b.c];
    if x in ch.recvq + Channel.Ids(ch.sendq) {
      assert x in ch.recvq || x in Channel.Ids(ch.sendq);
    }
  }

  lemma TimersOfWorkers(w: W.State, a: W.Action, x: TaskId)
    requires W.Inv(w) && W.Enabled(w, a)
    ensures x in W.Apply(w, a).sleep
       <==> (x in w.sleep || (a.Sleep? && x == W.Cur(w, a.w).id)) && !(a.FireReady? && x == w.ws[a.w].phase.t)
  {
    if a.Fire? {
      assert a.e.id in w.sleep;
    } else if !a.FireReady? && !a.Sleep? {
      WI.NoTimerTouched(w, a);
    }
  }

  lemma StepKeepsInv<T>(s: State<T>, x: Step<T>)
    requires Inv(s) && Enabled(s, x)
    ensures Inv(Apply(s, x))
  {
    if x.TaskStep? {
      TaskStepKeepsInv(s, x);
    } else {
      SchedStepKeepsInv(s, x);
    }
  }

  lemma TaskStepKeepsInv<T>(s: State<T>, x: Step<T>)
    requires Inv(s) && Enabled(s, x) && x.TaskStep?
    ensures Inv(Apply(s, x))
  {
    var a := Companion(s.c, x.on, x.b, x.wake);
    TaskStepMatched(s, x);
    CI.StepKeepsInv(s.c, x.b);
    CT.ParkFollows(s.c, x.b);
    if a.Some? {
      WI.StepKeepsInv(s.w, a.value);
    }
    TaskStepTimers(s, x);
  }

  lemma TaskStepTimers<T>(s: State<T>, x: Step<T>)
    requires Inv(s) && Enabled(s, x) && x.TaskStep?
    ensures forall y :: y in Apply(s, x).w.sleep <==> OnTimerHeap(Apply(s, x).c, y)
  {
    var a := Companion(s.c, x.on, x.b, x.wake);
    TaskStepMatched(s, x);
    forall y ensures y in Apply(s, x).w.sleep <==> OnTimerHeap(Apply(s, x).c, y) {
      assert y in s.w.sleep <==> OnTimerHeap(s.c, y);
      TimersOfTasks(s.c, x.b, y);
      if a.Some? {
        TimersOfWorkers(s.w, a.value, y);
      }
    }
  }

  lemma SchedStepKeepsInv<T>(s: State<T>, x: Step<T>)
    requires Inv(s) && Enabled(s, x) && x.SchedStep?
    ensures Inv(Apply(s, x))
  {
    var b := Effect<T>(s.w, x.a);
    SchedStepMatched(s, x);
    WI.StepKeepsInv(s.w, x.a);
    if b.Some? {
      CI.StepKeepsInv(s.c, b.value);
      CT.ParkFollows(s.c, b.value);
    }
    SchedStepTimers(s, x);
  }

  lemma SchedStepTimers<T>(s: State<T>, x: Step<T>)
    requires Inv(s) && Enabled(s, x) && x.SchedStep?
    ensures forall y :: y in Apply(s, x).w.sleep <==> OnTimerHeap(Apply(s, x).c, y)
  {
    var b := Effect<T>(s.w, x.a);
    SchedStepMatched(s, x);
    forall y ensures y in Apply(s, x).w.sleep <==> OnTimerHeap(Apply(s, x).c, y) {
      assert y in s.w.sleep <==> OnTimerHeap(s.c, y);
      TimersOfWorkers(s.w, x.a, y);
      if b.Some? {
        TimersOfTasks(s.c, b.value, y);
      }
    }
  }

  // ---- Runs --------------------------------------------------------------------------------

  /** `n` tasks, `m` workers, and channels of the given capacities. */
  function Init<T>(n: nat, m: nat, caps: map<C.ChanId, nat>): State<T> {
    State(W.Init(n, m), C.Init(n, caps))
  }

  ghost predicate Run<T>(s: State<T>, steps: seq<Step<T>>)
    decreases |steps|, 0
  {
    steps == [] ||
    (var k := |steps| - 1; Run(s, steps[..k]) && Enabled(Exec(s, steps[..k]), steps[k]))
  }

  ghost function Exec<T>(s: State<T>, steps: seq<Step<T>>): State<T>
    requires Run(s, steps)
    decreases |steps|, 1
  {
    if steps == [] then s else Apply(Exec(s, steps[..|steps| - 1]), steps[|steps| - 1])
  }

  /** In every run of the whole runtime both layers keep their invariants and agree. */
  lemma {:induction false} RunKeepsInv<T>(n: nat, m: nat, caps: map<C.ChanId, nat>, steps: seq<Step<T>>)
    requires m >= 1 && Run(Init<T>(n, m, caps), steps)
    ensures Inv(Exec(Init<T>(n, m, caps), steps))
  {
    if steps == [] {
      WI.InitInv(n, m);
      CI.InitInv<T>(n, caps);
    } else {
      var k := |steps| - 1;
      RunKeepsInv<T>(n, m, caps, steps[..k]);
      StepKeepsInv(Exec(Init<T>(n, m, caps), steps[..k]), steps[k]);
    }
  }

  /** When all workers sleep or have left and no timer is pending, every task still alive
      is in a real deadlock: parked on an open channel that is empty (to receive) or full
      (to send), with nobody on the other side.  The scheduler has lost nothing. */
  lemma QuietMeansDeadlock<T>(n: nat, m: nat, caps: map<C.ChanId, nat>, steps: seq<Step<T>>, x: TaskId)
    requires m >= 1 && Run(Init<T>(n, m, caps), steps)
    requires var s := Exec(Init<T>(n, m, caps), steps);
      && (forall i :: 0 <= i < |s.w.ws| ==> s.w.ws[i].phase.Idle? || s.w.ws[i].phase.Exited?)
      && s.w.heap == multiset{}
      && x in s.w.park.live
    ensures var s := Exec(Init<T>(n, m, caps), steps);
      x in s.c.pc && s.c.pc[x].Resume? && CT.StuckAt(s.c, x, s.c.pc[x].k)
  {
    RunKeepsInv<T>(n, m, caps, steps);
    var s := Exec(Init<T>(n, m, caps), steps);
    AllParked(s.w);
    forall t | t in s.c.regAt ensures s.c.regAt[t] != C.AtTimer {
      assert t !in s.w.sleep;
    }
    CT.Stuck(s.c, x);
  }

  lemma AllParked(w: W.State)
    requires W.Inv(w)
    requires forall i :: 0 <= i < |w.ws| ==> w.ws[i].phase.Idle? || w.ws[i].phase.Exited?
    requires w.heap == multiset{}
    ensures forall t :: t in w.park.live ==> t in w.park.waiting
    ensures forall t :: t !in w.sleep
  {
    assert w.q.runnable == [];
    forall t | t in w.park.live ensures t in w.park.waiting {
      assert W.PlaceOk(w, t);
      assert w.place[t].OnWorker? ==> W.WorkerOk(w, w.place[t].w);
    }
    forall t ensures t !in w.sleep {
      if t in w.sleep {
        SleeperIsPending(w, t);
      }
    }
  }

  lemma SleeperIsPending(w: W.State, t: TaskId)
    requires W.Inv(w) && t in w.sleep
    ensures w.heap != multiset{} || exists i :: 0 <= i < |w.ws| && w.ws[i].phase.Firing?
  {
    assert W.SleepOk(w, t);
  }

  /** When a worker has left its loop, every task has finished, and nobody is left in any
      wait queue of any channel. */
  lemma LeavingMeansDone<T>(n: nat, m: nat, caps: map<C.ChanId, nat>, steps: seq<Step<T>>, i: nat)
    requires m >= 1 && Run(Init<T>(n, m, caps), steps)
    requires var s := Exec(Init<T>(n, m, caps), steps); i < |s.w.ws| && s.w.ws[i].phase.Exited?
    ensures var s := Exec(Init<T>(n, m, caps), steps);
      && (forall t :: t in s.c.pc ==> s.c.pc[t].Finished?)
      && (forall d :: d in s.c.chans ==> s.c.chans[d].recvq == [] && s.c.chans[d].sendq == [])
  {
    RunKeepsInv<T>(n, m, caps, steps);
    var s := Exec(Init<T>(n, m, caps), steps);
    WI.Witnessed(s.w, W.HasExited, i);
    forall t | t in s.c.pc ensures s.c.pc[t].Finished? {
      assert C.TaskOk(s.c, t);
    }
    forall d | d in s.c.chans ensures s.c.chans[d].recvq == [] && s.c.chans[d].sendq == [] {
      NoWaiters(s.c, d);
    }
  }

  lemma NoWaiters<T>(c: C.Sys<T>, d: C.ChanId)
    requires C.Inv(c) && d in c.chans && c.park.live == {}
    ensures c.chans[d].recvq == [] && c.chans[d].sendq == []
  {
    if c.chans[d].recvq != [] || c.chans[d].sendq != [] {
      WaiterIsLive(c, d);
    }
  }

  lemma WaiterIsLive<T>(c: C.Sys<T>, d: C.ChanId)
    requires C.Inv(c) && d in c.chans && (c.chans[d].recvq != [] || c.chans[d].sendq != [])
    ensures c.park.live != {}
  {
    assert C.ChanOk(c, d);
    var ch := c.chans[d];
    if ch.recvq != [] {
      assert ch.recvq[0] in ch.recvq && ch.recvq[0] in c.park.reg;
    } else {
      assert ch.sendq[0].id in c.park.reg;
    }
  }
}
