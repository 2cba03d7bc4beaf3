/** The producer/consumer pattern on the whole runtime: tasks, channel, workers, poller. */
module EndToEnd {
  import opened Common
  import PW = ParkWake
  import C = ChannelSystem
  import W = Workers
  import R = Runtime
  import P = ProducerConsumer

  datatype State<T> = State(rt: R.State<T>, todo: seq<T>, ended: set<TaskId>)

  /** The producer, `n` consumers and `m` workers. */
  function Start<T>(input: seq<T>, cap: nat, n: nat, m: nat): State<T> {
    State(R.Init(n + 1, m, map[0 := cap]), input, {})
  }

  function WorldOf<T>(s: State<T>): P.World<T> {
    P.World(s.rt.c, s.todo, s.ended)
  }

  /** Tasks take only the steps of their programs; the scheduler does as it likes. */
  predicate Enabled<T(==)>(s: State<T>, x: R.Step<T>) {
    R.Enabled(s.rt, x) && (x.TaskStep? ==> P.Allowed(WorldOf(s), x.b))
  }

  /** The step of the pattern contained in a step of the runtime, if any. */
  function Contained<T(==)>(s: State<T>, x: R.Step<T>): Option<C.Action<T>>
    requires Enabled(s, x)
  {
    if x.TaskStep? then Some(x.b) else R.Effect(s.rt.w, x.a)
  }

  function Apply<T(==)>(s: State<T>, x: R.Step<T>): State<T>
    requires Enabled(s, x)
  {
    var b := Contained(s, x);
    var w := if b.Some? && P.Allowed(WorldOf(s), b.value) then P.Next(WorldOf(s), b.value) else WorldOf(s);
    State(R.Apply(s.rt, x), w.todo, w.ended)
  }

  ghost predicate Run<T>(s: State<T>, steps: seq<R.Step<T>>)
    decreases |steps|, 0
  {
    steps == [] ||
    (var k := |steps| - 1; Run(s, steps[..k]) && Enabled(Exec(s, steps[..k]), steps[k]))
  }

  ghost function Exec<T>(s: State<T>, steps: seq<R.Step<T>>): State<T>
    requires Run(s, steps)
    decreases |steps|, 1
  {
    if steps == [] then s else Apply(Exec(s, steps[..|steps| - 1]), steps[|steps| - 1])
  }

  /** How many steps of a run belong to the pattern; the others are the scheduler's. */
  ghost function TaskSteps<T>(s: State<T>, steps: seq<R.Step<T>>): nat
    requires Run(s, steps)
  {
    if steps == [] then 0
    else
      var k := |steps| - 1;
      TaskSteps(s, steps[..k]) + if Contained(Exec(s, steps[..k]), steps[k]).Some? then 1 else 0
  }

  ghost predicate Inv<T>(s: State<T>, input: seq<T>, n: nat) {
    R.Inv(s.rt) && P.Good(WorldOf(s), input, n)
  }

  lemma NobodySleeps<T>(s: State<T>, input: seq<T>, n: nat)
    requires Inv(s, input, n)
    ensures s.rt.w.sleep.Keys == {} && s.rt.w.heap == multiset{}
  {
    P.NoTimers(WorldOf(s), input, n);
    forall x ensures x !in s.rt.w.sleep {
      assert x in s.rt.w.sleep <==> x in s.rt.c.regAt && s.rt.c.regAt[x] == C.AtTimer;
    }
    NoEntries(s.rt.w);
  }

  lemma NoEntries(w: W.State)
    requires W.TimersOk(w) && w.sleep.Keys == {}
    ensures w.heap == multiset{}
  {
    forall e ensures e !in w.heap {
      assert e in w.heap ==> e.id in w.sleep.Keys;
    }
  }

  lemma FiringWakesSleeper(w: W.State, i: nat)
    requires W.TimersOk(w) && i < |w.ws| && w.ws[i].phase.Firing?
    ensures w.ws[i].phase.t in w.sleep.Keys
  {
    assert W.PollerOk(w, i);
  }

  /** What the runtime step contains is a step of the pattern, and it does nothing else to
      tasks and channel. */
  lemma ContainedIsAllowed<T>(s: State<T>, x: R.Step<T>, input: seq<T>, n: nat)
    requires Inv(s, input, n) && Enabled(s, x)
    ensures var b := Contained(s, x);
      && (b.Some? ==> P.Allowed(WorldOf(s), b.value) && R.Apply(s.rt, x).c == C.Apply(s.rt.c, b.value))
      && (b.None? ==> R.Apply(s.rt, x).c == s.rt.c)
  {
    if x.SchedStep? {
      R.SchedStepMatched(s.rt, x);
      NobodySleeps(s, input, n);
      if x.a.FireReady? {
        FiringWakesSleeper(s.rt.w, x.a.w);
      }
    }
  }

  lemma StepKeepsInv<T>(s: State<T>, x: R.Step<T>, input: seq<T>, n: nat)
    requires Inv(s, input, n) && Enabled(s, x)
    ensures Inv(Apply(s, x), input, n)
    ensures P.Measure(WorldOf(Apply(s, x)), input, n) + (if Contained(s, x).Some? then 1 else 0)
         <= P.Measure(WorldOf(s), input, n)
  {
    ContainedIsAllowed(s, x, input, n);
    R.StepKeepsInv(s.rt, x);
    var b := Contained(s, x);
    if b.Some? {
      P.Decreases(WorldOf(s), b.value, input, n);
      assert WorldOf(Apply(s, x)) == P.Next(WorldOf(s), b.value);
    } else {
      assert WorldOf(Apply(s, x)) == WorldOf(s);
    }
  }

  lemma StartInv<T>(input: seq<T>, cap: nat, n: nat, m: nat)
    requires m >= 1
    ensures Inv(Start(input, cap, n, m), input, n)
    ensures P.Measure(WorldOf(Start(input, cap, n, m)), input, n) == 6 * |input| + 6 * n + 3
  {
    R.RunKeepsInv<T>(n + 1, m, map[0 := cap], []);
    P.StartMeasure(input, cap, n);
    assert WorldOf(Start(input, cap, n, m)) == P.Start(input, cap, n);
  }

  lemma {:induction false} RunKeepsInv<T>(input: seq<T>, cap: nat, n: nat, m: nat, steps: seq<R.Step<T>>)
    requires m >= 1 && Run(Start(input, cap, n, m), steps)
    ensures var s := Exec(Start(input, cap, n, m), steps);
      && Inv(s, input, n)
      && TaskSteps(Start(input, cap, n, m), steps) + P.Measure(WorldOf(s), input, n) <= 6 * |input| + 6 * n + 3
  {
    StartInv(input, cap, n, m);
    if steps != [] {
      var k := |steps| - 1;
      RunKeepsInv(input, cap, n, m, steps[..k]);
      StepKeepsInv(Exec(Start(input, cap, n, m), steps[..k]), steps[k], input, n);
    }
  }

  /** Nobody will do anything more: all workers are idle or have left, or one has left. */
  predicate AtRest(w: W.State) {
    || (forall i :: 0 <= i < |w.ws| ==> w.ws[i].phase.Idle? || w.ws[i].phase.Exited?)
    || (exists i :: 0 <= i < |w.ws| && w.ws[i].phase.Exited?)
  }

  lemma RestIsTheEnd<T>(s: State<T>, input: seq<T>, n: nat, x: TaskId)
    requires Inv(s, input, n) && n >= 1 && AtRest(s.rt.w)
    requires x in s.rt.c.pc
    ensures s.rt.c.pc[x].Finished?
  {
    assert C.TaskOk(s.rt.c, x);
    if x in s.rt.c.park.live {
      if i: nat :| i < |s.rt.w.ws| && s.rt.w.ws[i].phase.Exited? {
        R.WI.Witnessed(s.rt.w, W.HasExited, i);
      } else {
        NobodySleeps(s, input, n);
        R.AllParked(s.rt.w);
        P.NoDeadlock(WorldOf(s), input, n, x);
      }
    }
  }

  /** For every input, capacity, positive numbers of consumers and workers, and every
      interleaving of tasks and workers: nothing aborts, the tasks take no more than
      `6 |input| + 6 n + 3` steps, and when all workers are idle or any has left, every task
      has finished and the consumers have received exactly the values sent, a single one in
      just that order. */
  lemma AtRestAllIsDelivered<T(!new)>(input: seq<T>, cap: nat, n: nat, m: nat, steps: seq<R.Step<T>>)
    requires n >= 1 && m >= 1 && Run(Start(input, cap, n, m), steps)
    ensures var s := Exec(Start(input, cap, n, m), steps);
      && !s.rt.c.aborted
      && TaskSteps(Start(input, cap, n, m), steps) <= 6 * |input| + 6 * n + 3
      && (AtRest(s.rt.w) ==> P.AllDone(WorldOf(s), input, n))
  {
    RunKeepsInv(input, cap, n, m, steps);
    var s := Exec(Start(input, cap, n, m), steps);
    P.MeasureNonNegative(WorldOf(s), input, n);
    if AtRest(s.rt.w) {
      forall x | x in s.rt.c.pc ensures s.rt.c.pc[x].Finished? {
        RestIsTheEnd(s, input, n, x);
      }
      P.FinishedIsDone(WorldOf(s), input, n);
    }
  }
}
