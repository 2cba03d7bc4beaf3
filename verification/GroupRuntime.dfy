/** Workers and WaitGroups together, as Runtime puts workers and channels together: the tasks
    that Workers schedules are those whose operations WaitGroups describes. */
module GroupRuntime {
  import opened Common
  import PW = ParkWake
  import G = WaitGroups
  import W = Workers
  import WI = WorkersInvariant
  import R = Runtime

  datatype State = State(w: W.State, g: G.Sys)

  /** Either the task running on worker `on` takes a step of its program (for a sleep,
      asking for wake time `wake`), or the scheduler takes one of its own. */
  datatype Step = TaskStep(on: nat, b: G.Action, wake: int) | SchedStep(a: W.Action)

  /** What the scheduler sees of a task's step, if anything. */
  function Companion(g: G.Sys, on: nat, b: G.Action, wake: int): Option<W.Action>
    requires G.Enabled(g, b)
  {
    match b
    case Spawn(_) => Some(W.Spawn(on))
    case Wait(t, h) => if G.WaitLock(g.groups[h], t).1 then Some(W.Enlist(on)) else None
    case WakeNext(t) => Some(W.Rouse(on, g.pc[t].list[0]))
    case Sleep(_) => Some(W.Sleep(on, wake))
    case Finish(_) => Some(W.Finish(on))
    case _ => None
  }

  /** What the scheduler's own step means for the task it concerns. */
  function Effect(w: W.State, a: W.Action): Option<G.Action>
    requires W.Enabled(w, a)
  {
    match a
    case Settle(i) => if W.Cur(w, i).state == Waiting then Some(G.Commit(W.Cur(w, i).id)) else None
    case FireReady(i) => Some(G.TimerWake(w.ws[i].phase.t))
    case _ => None
  }

  predicate Enabled(s: State, x: Step) {
    !s.g.aborted &&
    match x
    case TaskStep(on, b, _) =>
      W.Acts(s.w, on) && G.Enabled(s.g, b) && !b.Commit? && !b.TimerWake? && W.Cur(s.w, on).id == b.t
    case SchedStep(a) => R.OwnStep(a) && W.Enabled(s.w, a)
  }

  predicate OnTimerHeap(g: G.Sys, x: TaskId) {
    x in g.regAt && g.regAt[x] == G.AtTimer
  }

  ghost predicate Inv(s: State) {
    && W.Inv(s.w) && G.Inv(s.g)
    && s.w.park == s.g.park
    && (forall x :: x in s.w.sleep <==> OnTimerHeap(s.g, x))
  }

  /** Whatever a task does next, the scheduler's part of it is enabled, with the same
      protocol label. */
  lemma TaskStepMatched(s: State, x: Step)
    requires Inv(s) && Enabled(s, x) && x.TaskStep?
    ensures var a := Companion(s.g, x.on, x.b, x.wake);
      && (a.Some? ==> W.Enabled(s.w, a.value) && W.LabelOf(s.w, a.value) == G.LabelOf(s.g, x.b))
      && (a.None? ==> G.LabelOf(s.g, x.b) == PW.Silent)
  {
    if x.b.WakeNext? {
      var t := x.b.t;
      assert G.TaskOk(s.g, t);
      assert s.g.pc[t].list[0] in s.g.pc[t].list;
    }
  }

  /** Conversely, the scheduler's own steps are steps its tasks are ready for. */
  lemma SchedStepMatched(s: State, x: Step)
    requires Inv(s) && Enabled(s, x) && x.SchedStep?
    ensures var b := Effect(s.w, x.a);
      && (b.Some? ==> G.Enabled(s.g, b.value) && G.LabelOf(s.g, b.value) == W.LabelOf(s.w, x.a))
      && (b.None? ==> W.LabelOf(s.w, x.a) == PW.Silent)
  {
    var a := x.a;
    if a.Settle? {
      assert W.WorkerOk(s.w, a.w);
      var t := W.Cur(s.w, a.w).id;
      if W.Cur(s.w, a.w).state == Waiting {
        assert t in s.g.park.live;
        assert G.TaskOk(s.g, t);
      }
    } else if a.FireReady? {
      assert W.PollerOk(s.w, a.w);
    }
  }

  function Apply(s: State, x: Step): State
    requires Enabled(s, x)
  {
    match x
    case TaskStep(on, b, wake) =>
      var a := Companion(s.g, on, b, wake);
      State(if a.Some? && W.Enabled(s.w, a.value) then W.Apply(s.w, a.value) else s.w, G.Apply(s.g, b))
    case SchedStep(a) =>
      var b := Effect(s.w, a);
      State(W.Apply(s.w, a), if b.Some? && G.Enabled(s.g, b.value) then G.Apply(s.g, b.value) else s.g)
  }

  // ---- The joint invariant ---------------------------------------------------------------

  lemma TimersOfTasks(g: G.Sys, b: G.Action, x: TaskId)
    requires G.Inv(g) && G.Enabled(g, b)
    ensures OnTimerHeap(G.Apply(g, b), x)
       <==> (OnTimerHeap(g, x) || (b.Sleep? && x == b.t)) && !(b.TimerWake? && x == b.t)
  {
    match b {
      case Add(t, h, delta) => TimersOfAdd(g, t, h, delta, x);
      case Wait(t, h) => G.ActiveIsUnbound(g, t);
      case WakeNext(t) => assert G.TaskOk(g, t) && g.pc[t].list[0] in g.pc[t].list;
      case _ =>
    }
  }

  lemma TimersOfAdd(g: G.Sys, t: TaskId, h: G.GroupId, delta: int, x: TaskId)
    requires G.Inv(g) && G.Enabled(g, G.Action.Add(t, h, delta))
    ensures OnTimerHeap(G.Apply(g, G.Action.Add(t, h, delta)), x) <==> OnTimerHeap(g, x)
  {
    assert G.GroupOk(g, h);
    var o := G.AddLock(g.groups[h], delta, g.now + 1, g.wraps).1;
    assert o.Added? ==> forall y :: y in o.wake ==> y in g.groups[h].waiters;
  }

  lemma StepKeepsInv(s: State, x: Step)
    requires Inv(s) && Enabled(s, x)
    ensures Inv(Apply(s, x))
  {
    if x.TaskStep? {
      TaskStepKeepsInv(s, x);
    } else {
      SchedStepKeepsInv(s, x);
    }
  }

  lemma TaskStepKeepsInv(s: State, x: Step)
    requires Inv(s) && Enabled(s, x) && x.TaskStep?
    ensures Inv(Apply(s, x))
  {
    var a := Companion(s.g, x.on, x.b, x.wake);
    TaskStepMatched(s, x);
    G.StepKeepsInv(s.g, x.b);
    G.LabelIsDisciplined(s.g, x.b);
    if a.Some? {
      WI.StepKeepsInv(s.w, a.value);
    }
    TaskStepTimers(s, x);
  }

  lemma TaskStepTimers(s: State, x: Step)
    requires Inv(s) && Enabled(s, x) && x.TaskStep?
    ensures forall y :: y in Apply(s, x).w.sleep <==> OnTimerHeap(Apply(s, x).g, y)
  {
    var a := Companion(s.g, x.on, x.b, x.wake);
    TaskStepMatched(s, x);
    forall y ensures y in Apply(s, x).w.sleep <==> OnTimerHeap(Apply(s, x).g, y) {
      assert y in s.w.sleep <==> OnTimerHeap(s.g, y);
      TimersOfTasks(s.g, x.b, y);
      if a.Some? {
        R.TimersOfWorkers(s.w, a.value, y);
      }
    }
  }

  lemma SchedStepKeepsInv(s: State, x: Step)
    requires Inv(s) && Enabled(s, x) && x.SchedStep?
    ensures Inv(Apply(s, x))
  {
    var b := Effect(s.w, x.a);
    SchedStepMatched(s, x);
    WI.StepKeepsInv(s.w, x.a);
    if b.Some? {
      G.StepKeepsInv(s.g, b.value);
      G.LabelIsDisciplined(s.g, b.value);
    }
    SchedStepTimers(s, x);
  }

  lemma SchedStepTimers(s: State, x: Step)
    requires Inv(s) && Enabled(s, x) && x.SchedStep?
    ensures forall y :: y in Apply(s, x).w.sleep <==> OnTimerHeap(Apply(s, x).g, y)
  {
    var b := Effect(s.w, x.a);
    SchedStepMatched(s, x);
    forall y ensures y in Apply(s, x).w.sleep <==> OnTimerHeap(Apply(s, x).g, y) {
      assert y in s.w.sleep <==> OnTimerHeap(s.g, y);
      R.TimersOfWorkers(s.w, x.a, y);
      if b.Some? {
        TimersOfTasks(s.g, b.value, y);
      }
    }
  }

  // ---- Runs --------------------------------------------------------------------------------

  /** `n` tasks, `m` workers, and groups with the given counters. */
  function Init(n: nat, m: nat, counters: map<G.GroupId, nat>, wraps: bool): State {
    State(W.Init(n, m), G.Init(n, counters, wraps))
  }

  ghost predicate Run(s: State, steps: seq<Step>)
    decreases |steps|, 0
  {
    steps == [] ||
    (var k := |steps| - 1; Run(s, steps[..k]) && Enabled(Exec(s, steps[..k]), steps[k]))
  }

  ghost function Exec(s: State, steps: seq<Step>): State
    requires Run(s, steps)
    decreases |steps|, 1
  {
    if steps == [] then s else Apply(Exec(s, steps[..|steps| - 1]), steps[|steps| - 1])
  }

  /** In every run of scheduler and groups together both keep their invariants and agree. */
  lemma {:induction false} RunKeepsInv(s: State, steps: seq<Step>)
    requires Inv(s) && Run(s, steps)
    ensures Inv(Exec(s, steps))
  {
    if steps != [] {
      var k := |steps| - 1;
      RunKeepsInv(s, steps[..k]);
      StepKeepsInv(Exec(s, steps[..k]), steps[k]);
    }
  }

  lemma InitInv(n: nat, m: nat, counters: map<G.GroupId, nat>, wraps: bool)
    requires m >= 1 && G.GoodStart(counters)
    ensures Inv(Init(n, m, counters, wraps))
  {
    WI.InitInv(n, m);
    G.InitInv(n, counters, wraps);
  }

  /** When all workers sleep or have left and no timer is pending, every task still alive
      waits in a group whose counter is positive.  The scheduler has lost nothing. */
  lemma QuietMeansWaiting(
    n: nat, m: nat, counters: map<G.GroupId, nat>, wraps: bool, steps: seq<Step>, x: TaskId)
    requires m >= 1 && G.GoodStart(counters) && Run(Init(n, m, counters, wraps), steps)
    requires var s := Exec(Init(n, m, counters, wraps), steps);
      && (forall i :: 0 <= i < |s.w.ws| ==> s.w.ws[i].phase.Idle? || s.w.ws[i].phase.Exited?)
      && s.w.heap == multiset{}
      && x in s.w.park.live
    ensures var s := Exec(Init(n, m, counters, wraps), steps);
      exists h :: h in s.g.groups && x in s.g.groups[h].waiters && s.g.groups[h].counter > 0
  {
    InitInv(n, m, counters, wraps);
    RunKeepsInv(Init(n, m, counters, wraps), steps);
    QuietWait(Exec(Init(n, m, counters, wraps), steps), x);
  }

  lemma QuietWait(s: State, x: TaskId)
    requires Inv(s) && s.w.heap == multiset{} && x in s.w.park.live
    requires forall i :: 0 <= i < |s.w.ws| ==> s.w.ws[i].phase.Idle? || s.w.ws[i].phase.Exited?
    ensures exists h :: h in s.g.groups && x in s.g.groups[h].waiters && s.g.groups[h].counter > 0
  {
    R.AllParked(s.w);
    forall t | t in s.g.regAt ensures s.g.regAt[t] != G.AtTimer {
      assert t in s.w.sleep <==> OnTimerHeap(s.g, t);
    }
    G.RealWait(s.g, x);
  }

  /** When a worker has left its loop, every task has finished and no group has waiters. */
  lemma LeavingMeansDone(
    n: nat, m: nat, counters: map<G.GroupId, nat>, wraps: bool, steps: seq<Step>, i: nat)
    requires m >= 1 && G.GoodStart(counters) && Run(Init(n, m, counters, wraps), steps)
    requires var s := Exec(Init(n, m, counters, wraps), steps); i < |s.w.ws| && s.w.ws[i].phase.Exited?
    ensures var s := Exec(Init(n, m, counters, wraps), steps);
      && (forall t :: t in s.g.pc ==> s.g.pc[t].Finished?)
      && (forall h :: h in s.g.groups ==> s.g.groups[h].waiters == [])
  {
    InitInv(n, m, counters, wraps);
    RunKeepsInv(Init(n, m, counters, wraps), steps);
    var s := Exec(Init(n, m, counters, wraps), steps);
    WI.Witnessed(s.w, W.HasExited, i);
    forall t | t in s.g.pc ensures s.g.pc[t].Finished? {
      assert G.TaskOk(s.g, t);
    }
    forall h | h in s.g.groups ensures s.g.groups[h].waiters == [] {
      NoWaiters(s.g, h);
    }
  }

  lemma NoWaiters(g: G.Sys, h: G.GroupId)
    requires G.Inv(g) && h in g.groups && g.park.live == {}
    ensures g.groups[h].waiters == []
  {
    if g.groups[h].waiters != [] {
      WaiterIsLive(g, h);
    }
  }

  lemma WaiterIsLive(g: G.Sys, h: G.GroupId)
    requires G.Inv(g) && h in g.groups && g.groups[h].waiters != []
    ensures g.park.live != {}
  {
    assert G.GroupOk(g, h);
    assert g.groups[h].waiters[0] in g.groups[h].waiters && g.groups[h].waiters[0] in g.park.reg;
  }
}
