/** The scheduler of poll.rs: no wake tokens, no timers, and another shutdown test.

    Here a worker that finds the queue empty tests for shutdown before it polls, and
    compares `idle_workers` with `all_workers - 1`, not counting itself.  Whether the
    network poller has waiters is an arbitrary flag, and the tasks it reports ready are
    arbitrary too. */
module Poll {
  import opened Common

  datatype Queue = Queue(runnable: seq<Task>, waiting: map<TaskId, Task>, idle: int, all: int)

  /** poll.rs's `should_terminate`. */
  predicate ShouldTerminate(q: Queue, netWaiters: bool) {
    q.runnable == [] && q.waiting == map[] && !netWaiters && q.idle == q.all - 1
  }

  datatype Next = Leaves | Runs(task: Task) | Polls

  /** The locked section at the top of the loop; after the condition variable the same
      test and pop follow, but without work the worker loops. */
  function Look(q: Queue, netWaiters: bool, leaveFirst: bool): (Queue, Next) {
    if leaveFirst && ShouldTerminate(q, netWaiters) then (q.(all := q.all - 1), Leaves)
    else if q.runnable != [] then
      (q.(runnable := q.runnable[1..]), Runs(q.runnable[0].(state := Running)))
    else if ShouldTerminate(q, netWaiters) then (q.(all := q.all - 1), Leaves)
    else (q, Polls)
  }

  /** `goready`: a task that is not filed yet is not woken. */
  function Goready(q: Queue, id: TaskId): Queue {
    if id in q.waiting
    then q.(waiting := q.waiting - {id}, runnable := q.runnable + [q.waiting[id].(state := Runnable)])
    else q
  }

  class PollQueue {
    var runnable: seq<Task>
    var waiting: map<TaskId, Task>
    var idle: int
    var all: int

    ghost function Model(): Queue
      reads this
    {
      Queue(runnable, waiting, idle, all)
    }

    constructor ()
      ensures Model() == Queue([], map[], 0, 0)
    {
      runnable, waiting, idle, all := [], map[], 0, 0;
    }

    method Test(netWaiters: bool) returns (b: bool)
      ensures b == ShouldTerminate(Model(), netWaiters)
    {
      b := runnable == [] && waiting == map[] && !netWaiters && idle == all - 1;
    }

    /** The top of the loop: take a task, else leave, else go polling. */
    method AtTop(netWaiters: bool) returns (r: Next)
      modifies this`runnable, this`all
      ensures (Model(), r) == Look(old(Model()), netWaiters, false)
    {
      if runnable != [] {
        var task := runnable[0];
        runnable := runnable[1..];
        return Runs(task.(state := Running));
      }
      var leave := Test(netWaiters);
      if leave {
        all := all - 1;
        return Leaves;
      }
      return Polls;
    }

    /** After the condition variable: leave, else take a task, else loop. */
    method AfterWait(netWaiters: bool) returns (r: Next)
      modifies this`runnable, this`all, this`idle
      ensures (Model(), r) == Look(old(Model()).(idle := old(idle) - 1), netWaiters, true)
    {
      idle := idle - 1;
      var leave := Test(netWaiters);
      if leave {
        all := all - 1;
        return Leaves;
      }
      if runnable != [] {
        var task := runnable[0];
        runnable := runnable[1..];
        return Runs(task.(state := Running));
      }
      return Polls;
    }

    method Ready(id: TaskId)
      modifies this`runnable, this`waiting
      ensures Model() == Goready(old(Model()), id)
    {
      if id in waiting {
        var task := waiting[id];
        waiting := waiting - {id};
        runnable := runnable + [task.(state := Runnable)];
      }
    }
  }

  // ---- Workers -----------------------------------------------------------------------------

  datatype Phase =
    | Unstarted
    | Top
    | TryPoll
    | Polling                       // holds POLLING
    | Waking(ready: seq<TaskId>)    // released it, wakes what the poller reported
    | PreIdle
    | Idle
    | Active
    | Switched
    | Exited

  datatype Worker = Worker(phase: Phase, current: Option<Task>)

  datatype Place = InRunnable | InWaiting | OnWorker(w: nat)

  datatype State = State(
    q: Queue,
    ws: seq<Worker>,
    polling: bool,
    net: bool,                      // the poller has waiters
    next: TaskId,
    place: map<TaskId, Place>       // auxiliary: the live tasks, and where each is
  )

  datatype Action =
    | Start(w: nat)
    | Top(w: nat)
    | Poll(w: nat, ready: seq<TaskId>)  // one step of try_poll_network
    | Rest(w: nat)
    | Wake(w: nat)
    | Go(w: nat)
    | AddWorker(w: nat)
    | Rouse(w: nat, x: TaskId)
    | Switch(w: nat, state: TaskState)  // gopark, gosched or the end of the task
    | Settle(w: nat)
    | Net(has: bool)

  function Init(n: nat, m: nat): State {
    State(Queue(seq(n, i requires 0 <= i < n => Task(i, Runnable)), map[], 0, 0),
          seq(m, i => Worker(Unstarted, None)), false, false, n,
          map t | t in FirstIds(n) :: InRunnable)
  }

  predicate At(s: State, w: nat, p: Phase) {
    w < |s.ws| && s.ws[w].phase == p
  }

  predicate Executes(s: State, w: nat) {
    At(s, w, Active) && s.ws[w].current.Some?
  }

  predicate Enabled(s: State, a: Action) {
    match a
    case Start(w) => At(s, w, Unstarted)
    case Top(w) => At(s, w, Phase.Top)
    case Poll(w, ready) => w < |s.ws| && (s.ws[w].phase.TryPoll? || s.ws[w].phase.Polling? || s.ws[w].phase.Waking?)
    case Rest(w) => At(s, w, PreIdle)
    case Wake(w) => At(s, w, Idle)
    case Go(w) => Executes(s, w)
    case AddWorker(w) => Executes(s, w)
    case Rouse(w, x) => Executes(s, w)
    case Switch(w, state) => Executes(s, w) && state != Runnable
    case Settle(w) => At(s, w, Switched) && s.ws[w].current.Some?
    case Net(_) => true
  }

  function SetWorker(s: State, w: nat, p: Phase, current: Option<Task>): State
    requires w < |s.ws|
  {
    s.(ws := s.ws[w := Worker(p, current)])
  }

  function Readied(s: State, x: TaskId): State {
    s.(q := Goready(s.q, x),
       place := if x in s.q.waiting && x in s.place then s.place[x := InRunnable] else s.place)
  }

  /** The worker acts on what it found in the queue. */
  function Looked(s: State, w: nat, q: Queue, r: Next, otherwise: Phase): State
    requires w < |s.ws|
  {
    match r
    case Leaves => SetWorker(s.(q := q), w, Exited, None)
    case Runs(task) =>
      SetWorker(s.(q := q, place := if task.id in s.place then s.place[task.id := OnWorker(w)] else s.place),
                w, Active, Some(task))
    case Polls => SetWorker(s.(q := q), w, otherwise, None)
  }

  function ApplyPoll(s: State, w: nat, ready: seq<TaskId>): State
    requires w < |s.ws|
  {
    match s.ws[w].phase
    case TryPoll =>
      if s.polling then SetWorker(s, w, PreIdle, None)
      else SetWorker(s.(polling := true), w, Polling, None)
    case Polling =>
      SetWorker(s.(polling := false), w, if s.net then Waking(ready) else PreIdle, None)
    case Waking(list) =>
      if list == [] then SetWorker(s, w, Phase.Top, None)
      else SetWorker(Readied(s, list[0]), w, Waking(list[1..]), None)
    case _ => s
  }

  function ApplySettle(s: State, w: nat): State
    requires w < |s.ws| && s.ws[w].current.Some?
  {
    var task := s.ws[w].current.value;
    var s1 := SetWorker(s, w, Phase.Top, None);
    match task.state
    case Dead => s1
    case Waiting =>
      s1.(q := s.q.(waiting := s.q.waiting[task.id := task]), place := s.place[task.id := InWaiting])
    case _ =>
      s1.(q := s.q.(runnable := s.q.runnable + [task.(state := Runnable)]),
          place := s.place[task.id := InRunnable])
  }

  function Apply(s: State, a: Action): State
    requires Enabled(s, a)
  {
    match a
    case Start(w) => SetWorker(s.(q := s.q.(all := s.q.all + 1)), w, Phase.Top, None)
    case Top(w) =>
      var (q, r) := Look(s.q, s.net, false);
      Looked(s, w, q, r, TryPoll)
    case Poll(w, ready) => ApplyPoll(s, w, ready)
    case Rest(w) => SetWorker(s.(q := s.q.(idle := s.q.idle + 1)), w, Idle, None)
    case Wake(w) =>
      var (q, r) := Look(s.q.(idle := s.q.idle - 1), s.net, true);
      Looked(s, w, q, r, Phase.Top)
    case Go(w) =>
      s.(q := s.q.(runnable := s.q.runnable + [Task(s.next, Runnable)]),
         place := s.place[s.next := InRunnable], next := s.next + 1)
    case AddWorker(w) => s.(ws := s.ws + [Worker(Unstarted, None)])
    case Rouse(w, x) => Readied(s, x)
    case Switch(w, state) =>
      var t := s.ws[w].current.value;
      SetWorker(s.(place := if state == Dead then s.place - {t.id} else s.place),
                w, Switched, Some(t.(state := state)))
    case Settle(w) => ApplySettle(s, w)
    case Net(has) => s.(net := has)
  }

  ghost predicate Run(s: State, acts: seq<Action>)
    decreases |acts|, 0
  {
    acts == [] ||
    (var k := |acts| - 1; Run(s, acts[..k]) && Enabled(Exec(s, acts[..k]), acts[k]))
  }

  ghost function Exec(s: State, acts: seq<Action>): State
    requires Run(s, acts)
    decreases |acts|, 1
  {
    if acts == [] then s else Apply(Exec(s, acts[..|acts| - 1]), acts[|acts| - 1])
  }

  // ---- Invariant -------------------------------------------------------------------------

  predicate HasTask(p: Phase) {
    p.Active? || p.Switched?
  }

  ghost predicate PlaceOk(s: State, t: TaskId)
    requires t in s.place
  {
    && t < s.next
    && match s.place[t]
       case InRunnable => Task(t, Runnable) in s.q.runnable
       case InWaiting => t in s.q.waiting
       case OnWorker(w) =>
         w < |s.ws| && HasTask(s.ws[w].phase) && s.ws[w].current.Some? && s.ws[w].current.value.id == t
  }

  ghost predicate WorkerOk(s: State, w: nat)
    requires w < |s.ws|
  {
    HasTask(s.ws[w].phase) ==>
      && s.ws[w].current.Some?
      && var task := s.ws[w].current.value;
      && (s.ws[w].phase.Switched? ==> task.state != Runnable)
      && (s.ws[w].phase.Active? ==> task.id in s.place && s.place[task.id] == OnWorker(w))
      && (s.ws[w].phase.Switched? && task.state != Dead ==> task.id in s.place && s.place[task.id] == OnWorker(w))
      && (s.ws[w].phase.Switched? && task.state == Dead ==> task.id !in s.place)
      && task.id < s.next
  }

  ghost predicate Placed(s: State) {
    && (forall t :: t in s.place ==> PlaceOk(s, t))
    && (forall w :: 0 <= w < |s.ws| ==> WorkerOk(s, w))
    && NoDup(s.q.runnable)
    && (forall task :: task in s.q.runnable ==>
          task.state == Runnable && task.id in s.place && s.place[task.id] == InRunnable)
    && (forall t :: t in s.q.waiting ==> s.q.waiting[t] == Task(t, Waiting) && t in s.place && s.place[t] == InWaiting)
  }

  predicate IsIdle(w: Worker) { w.phase.Idle? }
  predicate Registered(w: Worker) { !w.phase.Unstarted? && !w.phase.Exited? }
  predicate HasExited(w: Worker) { w.phase.Exited? }

  ghost function NumIdle(s: State): nat { Count(s.ws, IsIdle) }
  ghost function NumRegistered(s: State): nat { Count(s.ws, Registered) }
  ghost function NumExited(s: State): nat { Count(s.ws, HasExited) }

  ghost predicate Counted(s: State) {
    s.q.idle == NumIdle(s) && s.q.all == NumRegistered(s)
  }

  ghost predicate ExitsLate(s: State) {
    NumExited(s) > 0 ==> s.place == map[]
  }

  ghost predicate Inv(s: State) {
    Placed(s) && Counted(s) && ExitsLate(s)
  }

  // ---- Tasks keep their places --------------------------------------------------------------

  /** At most one worker moves, which has no task before or after. */
  ghost predicate Sidestep(s: State, s': State) {
    && s'.q.runnable == s.q.runnable && s'.q.waiting == s.q.waiting
    && s'.place == s.place && s'.next == s.next && |s.ws| <= |s'.ws|
    && (forall i :: 0 <= i < |s'.ws| && (i >= |s.ws| || s'.ws[i] != s.ws[i]) ==>
          (i < |s.ws| ==> !HasTask(s.ws[i].phase)) && !HasTask(s'.ws[i].phase))
  }

  lemma SidestepKeeps(s: State, s': State)
    requires Placed(s) && Sidestep(s, s')
    ensures Placed(s')
  {
    forall t | t in s'.place ensures PlaceOk(s', t) {
      assert PlaceOk(s, t);
    }
    forall w | 0 <= w < |s'.ws| ensures WorkerOk(s', w) {
      assert w < |s.ws| ==> WorkerOk(s, w);
    }
  }

  lemma ReadiedKeeps(s: State, x: TaskId)
    requires Placed(s)
    ensures Placed(Readied(s, x)) && Readied(s, x).ws == s.ws
  {
    var s' := Readied(s, x);
    forall t | t in s'.place ensures PlaceOk(s', t) {
      assert PlaceOk(s, t);
    }
    forall w | 0 <= w < |s'.ws| ensures WorkerOk(s', w) {
      assert WorkerOk(s, w);
    }
  }

  lemma TakeKeeps(s: State, w: nat, q: Queue, otherwise: Phase)
    requires Placed(s) && w < |s.ws| && !HasTask(s.ws[w].phase) && s.q.runnable != []
    requires q.runnable == s.q.runnable[1..] && q.waiting == s.q.waiting
    ensures Placed(Looked(s, w, q, Runs(s.q.runnable[0].(state := Running)), otherwise))
  {
    var task := s.q.runnable[0];
    var s' := Looked(s, w, q, Runs(task.(state := Running)), otherwise);
    HeadIsNew(s.q.runnable);
    forall t | t in s'.place ensures PlaceOk(s', t) {
      assert PlaceOk(s, t);
    }
    forall i | 0 <= i < |s'.ws| ensures WorkerOk(s', i) {
      assert WorkerOk(s, i);
    }
  }

  lemma LookKeeps(s: State, a: Action)
    requires Placed(s) && Enabled(s, a) && (a.Top? || a.Wake?)
    ensures Placed(Apply(s, a))
  {
    var (q, r) := if a.Top? then Look(s.q, s.net, false) else Look(s.q.(idle := s.q.idle - 1), s.net, true);
    var otherwise := if a.Top? then TryPoll else Phase.Top;
    assert Apply(s, a) == Looked(s, a.w, q, r, otherwise);
    if r.Runs? {
      TakeKeeps(s, a.w, q, otherwise);
    } else {
      SidestepKeeps(s, Apply(s, a));
    }
  }

  lemma PollKeeps(s: State, w: nat, ready: seq<TaskId>)
    requires Placed(s) && Enabled(s, Poll(w, ready))
    ensures Placed(Apply(s, Poll(w, ready)))
  {
    var p := s.ws[w].phase;
    if p.Waking? && p.ready != [] {
      ReadiedKeeps(s, p.ready[0]);
      var mid := Readied(s, p.ready[0]);
      SidestepKeeps(mid, SetWorker(mid, w, Waking(p.ready[1..]), None));
    } else {
      PollSidesteps(s, w, ready);
      SidestepKeeps(s, Apply(s, Poll(w, ready)));
    }
  }

  lemma PollSidesteps(s: State, w: nat, ready: seq<TaskId>)
    requires Enabled(s, Poll(w, ready)) && (s.ws[w].phase.Waking? ==> s.ws[w].phase.ready == [])
    ensures Sidestep(s, Apply(s, Poll(w, ready)))
  {
  }

  lemma SwitchKeeps(s: State, w: nat, state: TaskState)
    requires Placed(s) && Enabled(s, Switch(w, state))
    ensures Placed(Apply(s, Switch(w, state)))
  {
    var s' := Apply(s, Switch(w, state));
    assert WorkerOk(s, w);
    forall t | t in s'.place ensures PlaceOk(s', t) {
      assert PlaceOk(s, t);
    }
    forall i | 0 <= i < |s'.ws| ensures WorkerOk(s', i) {
      assert WorkerOk(s, i);
    }
  }

  lemma SettleKeeps(s: State, w: nat)
    requires Placed(s) && Enabled(s, Settle(w))
    ensures Placed(Apply(s, Settle(w)))
  {
    var task := s.ws[w].current.value;
    var s' := Apply(s, Settle(w));
    assert WorkerOk(s, w);
    match task.state {
      case Dead => DropKeeps(s, s', w, task);
      case Waiting => FileKeeps(s, s', w, task);
      case _ => YieldKeeps(s, s', w, task);
    }
  }

  ghost predicate Releases(s: State, s': State, w: nat, task: Task) {
    && w < |s.ws| && s.ws[w] == Worker(Switched, Some(task))
    && s'.ws == s.ws[w := Worker(Phase.Top, None)] && s'.next == s.next
  }

  lemma DropKeeps(s: State, s': State, w: nat, task: Task)
    requires Placed(s) && Releases(s, s', w, task) && task.state == Dead
    requires s'.q == s.q && s'.place == s.place
    ensures Placed(s')
  {
    assert WorkerOk(s, w);
    forall t | t in s'.place ensures PlaceOk(s', t) {
      assert PlaceOk(s, t);
    }
    forall i | 0 <= i < |s'.ws| ensures WorkerOk(s', i) {
      assert WorkerOk(s, i);
    }
  }

  lemma FileKeeps(s: State, s': State, w: nat, task: Task)
    requires Placed(s) && Releases(s, s', w, task) && task.state == Waiting
    requires s'.q.runnable == s.q.runnable && s'.q.waiting == s.q.waiting[task.id := task]
    requires s'.place == s.place[task.id := InWaiting]
    ensures Placed(s')
  {
    assert WorkerOk(s, w);
    forall t | t in s'.place ensures PlaceOk(s', t) {
      assert PlaceOk(s, t);
    }
    forall i | 0 <= i < |s'.ws| ensures WorkerOk(s', i) {
      assert WorkerOk(s, i);
    }
  }

  lemma YieldKeeps(s: State, s': State, w: nat, task: Task)
    requires Placed(s) && Releases(s, s', w, task) && task.state == Running
    requires s'.q.runnable == s.q.runnable + [Task(task.id, Runnable)] && s'.q.waiting == s.q.waiting
    requires s'.place == s.place[task.id := InRunnable]
    ensures Placed(s')
  {
    assert WorkerOk(s, w);
    forall t | t in s'.place ensures PlaceOk(s', t) {
      assert PlaceOk(s, t);
    }
    forall i | 0 <= i < |s'.ws| ensures WorkerOk(s', i) {
      assert WorkerOk(s, i);
    }
  }

  lemma GoKeeps(s: State, w: nat)
    requires Placed(s) && Enabled(s, Go(w))
    ensures Placed(Apply(s, Go(w)))
  {
    var s' := Apply(s, Go(w));
    assert s.next in s.place ==> PlaceOk(s, s.next);
    forall t | t in s'.place ensures PlaceOk(s', t) {
      assert t in s.place ==> PlaceOk(s, t);
    }
    forall i | 0 <= i < |s'.ws| ensures WorkerOk(s', i) {
      assert WorkerOk(s, i);
    }
  }

  lemma PlacesKept(s: State, a: Action)
    requires Placed(s) && Enabled(s, a)
    ensures Placed(Apply(s, a))
  {
    match a {
      case Top(_) => LookKeeps(s, a);
      case Wake(_) => LookKeeps(s, a);
      case Poll(w, ready) => PollKeeps(s, w, ready);
      case Rouse(w, x) => ReadiedKeeps(s, x);
      case Go(w) => GoKeeps(s, w);
      case Switch(w, state) => SwitchKeeps(s, w, state);
      case Settle(w) => SettleKeeps(s, w);
      case _ => SidestepKeeps(s, Apply(s, a));
    }
  }

  // ---- Counters --------------------------------------------------------------------------------

  lemma CountersMove(s: State, s': State, w: nat)
    requires w < |s.ws| == |s'.ws| && s'.ws == s.ws[w := s'.ws[w]]
    ensures NumIdle(s') == NumIdle(s) - Bit(IsIdle(s.ws[w])) + Bit(IsIdle(s'.ws[w]))
    ensures NumRegistered(s') == NumRegistered(s) - Bit(Registered(s.ws[w])) + Bit(Registered(s'.ws[w]))
    ensures NumExited(s') == NumExited(s) - Bit(HasExited(s.ws[w])) + Bit(HasExited(s'.ws[w]))
  {
    CountUpdate(s.ws, IsIdle, w, s'.ws[w]);
    CountUpdate(s.ws, Registered, w, s'.ws[w]);
    CountUpdate(s.ws, HasExited, w, s'.ws[w]);
  }

  lemma OneWorkerMoves(s: State, a: Action)
    requires Enabled(s, a) && !a.Net? && !a.AddWorker?
    ensures a.w < |s.ws| == |Apply(s, a).ws|
    ensures Apply(s, a).ws == s.ws[a.w := Apply(s, a).ws[a.w]]
  {
    assert s.ws == s.ws[a.w := s.ws[a.w]];
  }

  /** The counters of the queue follow the kind of the acting worker. */
  ghost predicate KindsFollow(s: State, s': State, w: nat)
    requires w < |s.ws| == |s'.ws|
  {
    && s'.q.idle - s.q.idle == Bit(IsIdle(s'.ws[w])) - Bit(IsIdle(s.ws[w]))
    && s'.q.all - s.q.all == Bit(Registered(s'.ws[w])) - Bit(Registered(s.ws[w]))
  }

  lemma KindsChange(s: State, a: Action)
    requires Enabled(s, a) && !a.Net? && !a.AddWorker? && a.w < |s.ws| == |Apply(s, a).ws|
    ensures KindsFollow(s, Apply(s, a), a.w)
  {
    match a {
      case Top(_) => LookKinds(s, a);
      case Wake(_) => LookKinds(s, a);
      case _ =>
    }
  }

  lemma LookKinds(s: State, a: Action)
    requires Enabled(s, a) && (a.Top? || a.Wake?) && |s.ws| == |Apply(s, a).ws|
    ensures KindsFollow(s, Apply(s, a), a.w)
  {
  }

  lemma CountersKept(s: State, a: Action)
    requires Counted(s) && Enabled(s, a)
    ensures Counted(Apply(s, a))
    ensures NumExited(Apply(s, a)) > NumExited(s) ==> a.Top? || a.Wake?
  {
    if a.AddWorker? {
      CountAppend(s.ws, IsIdle, Worker(Unstarted, None));
      CountAppend(s.ws, Registered, Worker(Unstarted, None));
      CountAppend(s.ws, HasExited, Worker(Unstarted, None));
    } else if !a.Net? {
      OneWorkerMoves(s, a);
      KindsChange(s, a);
      CountersMove(s, Apply(s, a), a.w);
      OnlyLooksExit(s, a);
    }
  }

  lemma OnlyLooksExit(s: State, a: Action)
    requires Enabled(s, a) && !a.Net? && !a.AddWorker? && a.w < |s.ws| == |Apply(s, a).ws|
    ensures HasExited(Apply(s, a).ws[a.w]) && !HasExited(s.ws[a.w]) ==> a.Top? || a.Wake?
  {
  }

  // ---- Shutdown ------------------------------------------------------------------------------

  /** All registered workers but `w` are idle when the test succeeds for `w`. */
  lemma AloneAwake(s: State, w: nat)
    requires Counted(s) && w < |s.ws| && Registered(s.ws[w])
    requires if s.ws[w].phase.Idle? then s.q.idle - 1 == s.q.all - 1 else s.q.idle == s.q.all - 1
    ensures forall i :: 0 <= i < |s.ws| && i != w && Registered(s.ws[i]) ==> s.ws[i].phase.Idle?
  {
    var mid := s.(ws := s.ws[w := Worker(Idle, None)]);
    CountersMove(s, mid, w);
    CountSubset(mid.ws, IsIdle, Registered);
    forall i | 0 <= i < |s.ws| && i != w && Registered(s.ws[i]) ensures s.ws[i].phase.Idle? {
      assert mid.ws[i] == s.ws[i];
    }
  }

  lemma LiveIsSomewhere(s: State, t: TaskId)
    requires Placed(s) && t in s.place
    ensures s.q.runnable != [] || t in s.q.waiting || exists w :: 0 <= w < |s.ws| && HasTask(s.ws[w].phase)
  {
    assert PlaceOk(s, t);
  }

  /** When a worker leaves, no task is alive. */
  lemma NobodyLeft(s: State, a: Action)
    requires Placed(s) && Counted(s) && Enabled(s, a) && (a.Top? || a.Wake?)
    requires a.w < |Apply(s, a).ws| && HasExited(Apply(s, a).ws[a.w])
    ensures s.place == map[] && Apply(s, a).place == map[]
  {
    LeavingTest(s, a);
    AloneAwake(s, a.w);
    forall t ensures t !in s.place {
      if t in s.place {
        LiveIsSomewhere(s, t);
      }
    }
    assert s.place.Keys == {};
  }

  lemma LeavingTest(s: State, a: Action)
    requires Enabled(s, a) && (a.Top? || a.Wake?)
    requires a.w < |Apply(s, a).ws| && HasExited(Apply(s, a).ws[a.w])
    ensures s.q.runnable == [] && s.q.waiting == map[] && Apply(s, a).place == s.place
    ensures a.Top? ==> s.q.idle == s.q.all - 1
    ensures a.Wake? ==> s.q.idle - 1 == s.q.all - 1
  {
  }

  lemma ExitsKept(s: State, a: Action)
    requires Placed(s) && Counted(s) && ExitsLate(s) && Enabled(s, a)
    ensures ExitsLate(Apply(s, a))
  {
    CountersKept(s, a);
    if NumExited(Apply(s, a)) > NumExited(s) {
      OneWorkerMoves(s, a);
      CountersMove(s, Apply(s, a), a.w);
      NobodyLeft(s, a);
    } else if NumExited(Apply(s, a)) > 0 {
      StaysEmpty(s, a);
    }
  }

  /** With no task alive, no action creates one. */
  lemma StaysEmpty(s: State, a: Action)
    requires Placed(s) && s.place == map[] && Enabled(s, a)
    ensures Apply(s, a).place == map[]
  {
    if a.Go? || a.Settle? {
      assert WorkerOk(s, a.w);
    }
  }

  lemma StepKeepsInv(s: State, a: Action)
    requires Inv(s) && Enabled(s, a)
    ensures Inv(Apply(s, a))
  {
    PlacesKept(s, a);
    CountersKept(s, a);
    ExitsKept(s, a);
  }

  lemma InitInv(n: nat, m: nat)
    ensures Inv(Init(n, m))
  {
    var s := Init(n, m);
    CountNone(s.ws, IsIdle);
    CountNone(s.ws, Registered);
    CountNone(s.ws, HasExited);
    forall t | t in s.place ensures PlaceOk(s, t) {
      assert s.q.runnable[t] == Task(t, Runnable);
    }
  }

  lemma {:induction false} RunKeepsInv(n: nat, m: nat, acts: seq<Action>)
    requires Run(Init(n, m), acts)
    ensures Inv(Exec(Init(n, m), acts))
  {
    if acts == [] {
      InitInv(n, m);
    } else {
      var k := |acts| - 1;
      RunKeepsInv(n, m, acts[..k]);
      StepKeepsInv(Exec(Init(n, m), acts[..k]), acts[k]);
    }
  }

  /** No worker leaves early, whichever of its two exits it takes: once one has left, every
      task ever created is dead and none is queued, filed or held by a worker. */
  lemma ExitSafety(n: nat, m: nat, acts: seq<Action>, w: nat)
    requires Run(Init(n, m), acts)
    requires w < |Exec(Init(n, m), acts).ws| && Exec(Init(n, m), acts).ws[w].phase == Exited
    ensures var s := Exec(Init(n, m), acts);
      && s.place == map[] && s.q.runnable == [] && s.q.waiting == map[]
      && (forall v :: 0 <= v < |s.ws| ==> !s.ws[v].phase.Active?)
  {
    RunKeepsInv(n, m, acts);
    var s := Exec(Init(n, m), acts);
    CountNone(s.ws, HasExited);
    if s.q.runnable != [] {
      QueuedIsPlaced(s);
    }
    assert s.q.waiting.Keys == {};
    forall v | 0 <= v < |s.ws| ensures !s.ws[v].phase.Active? {
      assert WorkerOk(s, v);
    }
  }

  lemma QueuedIsPlaced(s: State)
    requires Placed(s) && s.q.runnable != []
    ensures s.place != map[]
  {
    assert s.q.runnable[0] in s.q.runnable;
  }

  ghost predicate OthersIdle(s: State, w: nat) {
    forall i :: 0 <= i < |s.ws| && i != w && Registered(s.ws[i]) ==> s.ws[i].phase.Idle?
  }

  /** Exactly when a worker leaves, at the top of its loop or after waking up: no task is
      alive, the poller has no waiters, and every other registered worker is idle. */
  lemma ExitIff(n: nat, m: nat, acts: seq<Action>, a: Action)
    requires Run(Init(n, m), acts) && Enabled(Exec(Init(n, m), acts), a) && (a.Top? || a.Wake?)
    ensures var s := Exec(Init(n, m), acts);
      && a.w < |Apply(s, a).ws|
      && (Apply(s, a).ws[a.w].phase.Exited? <==> s.place == map[] && !s.net && OthersIdle(s, a.w))
  {
    RunKeepsInv(n, m, acts);
    LeavesIff(Exec(Init(n, m), acts), a);
  }

  lemma LeavesIff(s: State, a: Action)
    requires Inv(s) && Enabled(s, a) && (a.Top? || a.Wake?)
    ensures a.w < |Apply(s, a).ws|
    ensures Apply(s, a).ws[a.w].phase.Exited? <==> s.place == map[] && !s.net && OthersIdle(s, a.w)
  {
    if Apply(s, a).ws[a.w].phase.Exited? {
      NobodyLeft(s, a);
      LeavingTest(s, a);
      AloneAwake(s, a.w);
    } else if s.place == map[] && OthersIdle(s, a.w) {
      LastAwake(s, a.w);
      if s.q.runnable != [] {
        QueuedIsPlaced(s);
      }
      assert s.q.waiting.Keys == {};
    }
  }

  lemma LastAwake(s: State, w: nat)
    requires Counted(s) && w < |s.ws| && Registered(s.ws[w]) && OthersIdle(s, w)
    ensures s.q.all == s.q.idle + if s.ws[w].phase.Idle? then 0 else 1
  {
    var mid := s.(ws := s.ws[w := Worker(Idle, None)]);
    CountersMove(s, mid, w);
    CountSubset(mid.ws, IsIdle, Registered);
    CountSubset(mid.ws, Registered, IsIdle);
  }

  // ---- First come, first served ----------------------------------------------------------------

  /** The action dispatches a task. */
  predicate Dispatching(s: State, a: Action)
    requires Enabled(s, a)
  {
    || (a.Top? && Look(s.q, s.net, false).1.Runs?)
    || (a.Wake? && Look(s.q.(idle := s.q.idle - 1), s.net, true).1.Runs?)
  }

  ghost function Dispatches(s: State, acts: seq<Action>): nat
    requires Run(s, acts)
  {
    if acts == [] then 0
    else
      var k := |acts| - 1;
      Dispatches(s, acts[..k]) + if Dispatching(Exec(s, acts[..k]), acts[k]) then 1 else 0
  }

  lemma LookAdvances(q: Queue, net: bool, leaveFirst: bool)
    ensures var (q', r) := Look(q, net, leaveFirst);
      && Advances(q.runnable, q'.runnable, r.Runs?)
      && (r.Runs? ==> r.task == q.runnable[0].(state := Running))
  {
  }

  lemma QueueShifts(s: State, a: Action)
    requires Enabled(s, a)
    ensures Advances(s.q.runnable, Apply(s, a).q.runnable, Dispatching(s, a))
  {
    if a.Top? {
      LookAdvances(s.q, s.net, false);
    } else if a.Wake? {
      LookAdvances(s.q.(idle := s.q.idle - 1), s.net, true);
    } else {
      OthersPush(s, a);
    }
  }

  lemma OthersPush(s: State, a: Action)
    requires Enabled(s, a) && !a.Top? && !a.Wake?
    ensures s.q.runnable <= Apply(s, a).q.runnable
  {
  }

  /** The task at position `i` of the queue stays in line behind exactly those before it. */
  lemma {:induction false} StaysInLine(s: State, acts: seq<Action>, i: nat)
    requires Run(s, acts) && i < |s.q.runnable| && Dispatches(s, acts) <= i
    ensures InLine(s.q.runnable, Exec(s, acts).q.runnable, i, Dispatches(s, acts))
  {
    if acts != [] {
      var k := |acts| - 1;
      var now := Exec(s, acts[..k]);
      StaysInLine(s, acts[..k], i);
      QueueShifts(now, acts[k]);
      InLineStep(s.q.runnable, now.q.runnable, Apply(now, acts[k]).q.runnable, Dispatching(now, acts[k]),
                 i, Dispatches(s, acts[..k]));
    }
  }

  /** It is the one dispatched after exactly `i` other dispatches. */
  lemma DispatchOrder(s: State, acts: seq<Action>, i: nat, a: Action)
    requires Run(s, acts) && i < |s.q.runnable| && Dispatches(s, acts) == i
    requires Enabled(Exec(s, acts), a) && Dispatching(Exec(s, acts), a)
    ensures var s' := Apply(Exec(s, acts), a);
      a.w < |s'.ws| && s'.ws[a.w] == Worker(Active, Some(s.q.runnable[i].(state := Running)))
  {
    StaysInLine(s, acts, i);
    FrontDispatched(s, Exec(s, acts), i, a);
  }

  lemma FrontDispatched(s: State, now: State, i: nat, a: Action)
    requires InLine(s.q.runnable, now.q.runnable, i, i) && Enabled(now, a) && Dispatching(now, a)
    ensures a.w < |Apply(now, a).ws|
    ensures Apply(now, a).ws[a.w] == Worker(Active, Some(s.q.runnable[i].(state := Running)))
  {
  }

  // ---- No stranded task -----------------------------------------------------------------------

  /** Phases from which a worker is bound to look at the queue again. */
  predicate WillLook(p: Phase) {
    p.Unstarted? || p.Top? || p.Waking? || p.Active? || p.Switched?
  }

  ghost predicate Attended(s: State) {
    s.q.runnable != [] ==> exists w :: 0 <= w < |s.ws| && WillLook(s.ws[w].phase)
  }

  /** A worker turns away only from an empty queue. */
  lemma TurnsAway(s: State, a: Action)
    requires Enabled(s, a) && !a.Net? && !a.AddWorker? && a.w < |s.ws| == |Apply(s, a).ws|
    requires Apply(s, a).q.runnable != [] && !WillLook(Apply(s, a).ws[a.w].phase)
    ensures s.q.runnable != [] && !WillLook(s.ws[a.w].phase)
  {
  }

  lemma AttentionKept(s: State, a: Action)
    requires Attended(s) && Enabled(s, a)
    ensures Attended(Apply(s, a))
  {
    var s' := Apply(s, a);
    if a.AddWorker? {
      assert s'.ws[a.w] == s.ws[a.w];
    } else if s'.q.runnable != [] && !a.Net? {
      OneWorkerMoves(s, a);
      if !WillLook(s'.ws[a.w].phase) {
        TurnsAway(s, a);
        var i :| 0 <= i < |s.ws| && WillLook(s.ws[i].phase);
        assert s'.ws[i] == s.ws[i];
      }
    }
  }

  /** If a task is runnable, some worker is bound to look at the queue again; so with all
      workers idle or gone, none is. */
  lemma {:induction false} NoStrandedTask(n: nat, m: nat, acts: seq<Action>)
    requires m >= 1 && Run(Init(n, m), acts)
    ensures Attended(Exec(Init(n, m), acts))
    ensures var s := Exec(Init(n, m), acts);
      (forall w :: 0 <= w < |s.ws| ==> s.ws[w].phase.Idle? || s.ws[w].phase.Exited?) ==> s.q.runnable == []
  {
    if acts == [] {
      assert WillLook(Init(n, m).ws[0].phase);
    } else {
      var k := |acts| - 1;
      NoStrandedTask(n, m, acts[..k]);
      AttentionKept(Exec(Init(n, m), acts[..k]), acts[k]);
    }
  }

  // ---- Lost wakeups ---------------------------------------------------------------------------

  /** When a `goready` takes effect: exactly if its task has been filed by then.  A task that
      called `gopark` but is still in its worker's slot is not woken. */
  lemma GoreadyWorksIff(n: nat, m: nat, acts: seq<Action>, v: nat, x: TaskId)
    requires Run(Init(n, m), acts) && Enabled(Exec(Init(n, m), acts), Rouse(v, x))
    ensures var s := Exec(Init(n, m), acts); var s' := Apply(s, Rouse(v, x));
      && (s' != s <==> x in s.q.waiting)
      && (x in s.q.waiting ==> x !in s'.q.waiting && Task(x, Runnable) in s'.q.runnable)
  {
    RunKeepsInv(n, m, acts);
    var s := Exec(Init(n, m), acts);
    if x in s.q.waiting {
      var q := Apply(s, Rouse(v, x)).q.runnable;
      assert q[|q| - 1] == Task(x, Runnable);
    }
  }

  /** What timer.rs and channel.rs repair: here a `goready` that comes before its task is
      filed is lost.  The task is filed as if nobody had woken it; in the other order it is
      runnable. */
  lemma EarlyWakeupIsLost(s: State, v: nat, w: nat)
    requires Inv(s) && Enabled(s, Settle(w)) && s.ws[w].current.value.state == Waiting
    requires Enabled(s, Rouse(v, s.ws[w].current.value.id))
    ensures var task := s.ws[w].current.value;
      && Apply(s, Rouse(v, task.id)) == s
      && task.id in Apply(s, Settle(w)).q.waiting
      && Enabled(Apply(s, Settle(w)), Rouse(v, task.id))
      && Task(task.id, Runnable) in Apply(Apply(s, Settle(w)), Rouse(v, task.id)).q.runnable
  {
    assert WorkerOk(s, w);
    var task := s.ws[w].current.value;
    var q := Apply(Apply(s, Settle(w)), Rouse(v, task.id)).q.runnable;
    assert q[|q| - 1] == Task(task.id, Runnable);
  }

  /** The poller's own wakeups: each takes effect exactly if its task has been filed, too. */
  lemma PollerWakesIff(n: nat, m: nat, acts: seq<Action>, w: nat, ready: seq<TaskId>)
    requires Run(Init(n, m), acts) && Enabled(Exec(Init(n, m), acts), Poll(w, ready))
    requires var p := Exec(Init(n, m), acts).ws[w].phase; p.Waking? && p.ready != []
    ensures var s := Exec(Init(n, m), acts); var (s', x) := (Apply(s, Poll(w, ready)), s.ws[w].phase.ready[0]);
      && (s'.q != s.q <==> x in s.q.waiting)
      && (x in s.q.waiting ==> x !in s'.q.waiting && Task(x, Runnable) in s'.q.runnable)
  {
    RunKeepsInv(n, m, acts);
    var s := Exec(Init(n, m), acts);
    var x := s.ws[w].phase.ready[0];
    if x in s.q.waiting {
      var q := Apply(s, Poll(w, ready)).q.runnable;
      assert q[|q| - 1] == Task(x, Runnable);
    }
  }

  lemma ExtendRun(s: State, acts: seq<Action>, a: Action)
    requires Run(s, acts) && Enabled(Exec(s, acts), a)
    ensures Run(s, acts + [a]) && Exec(s, acts + [a]) == Apply(Exec(s, acts), a)
  {
    assert (acts + [a])[..|acts|] == acts;
  }

  /** Two workers at the top of their loops, with tasks 0 and 1 queued. */
  lemma TwoAtTop() returns (acts: seq<Action>)
    ensures Run(Init(2, 2), acts)
    ensures var s := Exec(Init(2, 2), acts);
      && s.q.runnable == [Task(0, Runnable), Task(1, Runnable)]
      && s.ws == [Worker(Phase.Top, None), Worker(Phase.Top, None)]
  {
    acts := [];
    ExtendRun(Init(2, 2), acts, Start(0));
    acts := acts + [Start(0)];
    ExtendRun(Init(2, 2), acts, Start(1));
    acts := acts + [Start(1)];
  }

  /** Each of them has taken one. */
  lemma BothExecute() returns (acts: seq<Action>)
    ensures Run(Init(2, 2), acts)
    ensures Exec(Init(2, 2), acts).ws
         == [Worker(Active, Some(Task(0, Running))), Worker(Active, Some(Task(1, Running)))]
  {
    var start := TwoAtTop();
    ExtendRun(Init(2, 2), start, Action.Top(0));
    var half := start + [Action.Top(0)];
    ExtendRun(Init(2, 2), half, Action.Top(1));
    acts := half + [Action.Top(1)];
  }

  /** A run in which it happens: while worker 0 executes task 0, task 1 calls `gopark` on
      worker 1.  Before it is filed task 0 wakes it, in vain; then worker 1 files it. */
  lemma WakeupLost() returns (acts: seq<Action>)
    ensures Run(Init(2, 2), acts) && Enabled(Exec(Init(2, 2), acts), Switch(1, Waiting))
    ensures var parked := Apply(Exec(Init(2, 2), acts), Switch(1, Waiting));
      && Enabled(parked, Rouse(0, 1)) && Apply(parked, Rouse(0, 1)) == parked
      && Enabled(parked, Settle(1)) && 1 in Apply(parked, Settle(1)).q.waiting
  {
    acts := BothExecute();
    RunKeepsInv(2, 2, acts);
    var s := Exec(Init(2, 2), acts);
    StepKeepsInv(s, Switch(1, Waiting));
    EarlyWakeupIsLost(Apply(s, Switch(1, Waiting)), 0, 1);
  }

  /** One task, which runs on worker 1; worker 0 is about to look at the queue. */
  lemma SecondExecutes() returns (acts: seq<Action>)
    ensures Run(Init(1, 2), acts)
    ensures var s := Exec(Init(1, 2), acts);
      && s.ws == [Worker(Phase.Top, None), Worker(Active, Some(Task(0, Running)))]
      && s.q.runnable == [] && s.q.waiting == map[] && !s.polling
  {
    ExtendRun(Init(1, 2), [], Start(0));
    var one := [] + [Start(0)];
    ExtendRun(Init(1, 2), one, Start(1));
    var two := one + [Start(1)];
    ExtendRun(Init(1, 2), two, Action.Top(1));
    acts := two + [Action.Top(1)];
  }

  /** The task registers with the poller, and worker 0 begins to poll. */
  lemma FirstPolls() returns (acts: seq<Action>)
    ensures Run(Init(1, 2), acts)
    ensures var s := Exec(Init(1, 2), acts);
      && s.ws == [Worker(Polling, None), Worker(Active, Some(Task(0, Running)))]
      && s.q.waiting == map[] && s.net
  {
    var begun := SecondExecutes();
    ExtendRun(Init(1, 2), begun, Net(true));
    var one := begun + [Net(true)];
    ExtendRun(Init(1, 2), one, Action.Top(0));
    var two := one + [Action.Top(0)];
    ExtendRun(Init(1, 2), two, Poll(0, []));
    acts := two + [Poll(0, [])];
  }

  /** The same with the poller itself: it reports task 0 ready while the task is on its way
      into `gopark`.  Its `goready` is in vain, and the task is filed all the same. */
  lemma PollerWakesInVain() returns (acts: seq<Action>)
    ensures Run(Init(1, 2), acts)
    ensures var s := Exec(Init(1, 2), acts);
      && s.ws == [Worker(Waking([0]), None), Worker(Switched, Some(Task(0, Waiting)))]
      && Enabled(s, Poll(0, [])) && Apply(s, Poll(0, [])).q == s.q
      && Enabled(Apply(s, Poll(0, [])), Settle(1)) && 0 in Apply(Apply(s, Poll(0, [])), Settle(1)).q.waiting
  {
    var begun := FirstPolls();
    ExtendRun(Init(1, 2), begun, Poll(0, [0]));
    var one := begun + [Poll(0, [0])];
    ExtendRun(Init(1, 2), one, Switch(1, Waiting));
    acts := one + [Switch(1, Waiting)];
    InVain(Exec(Init(1, 2), acts));
  }

  lemma InVain(s: State)
    requires s.ws == [Worker(Waking([0]), None), Worker(Switched, Some(Task(0, Waiting)))]
    requires s.q.waiting == map[]
    ensures Enabled(s, Poll(0, [])) && Apply(s, Poll(0, [])).q == s.q
    ensures Enabled(Apply(s, Poll(0, [])), Settle(1))
    ensures 0 in Apply(Apply(s, Poll(0, [])), Settle(1)).q.waiting
  {
  }

  /** The action readies `x`. */
  predicate Wakes(s: State, a: Action, x: TaskId) {
    || (a.Rouse? && a.x == x)
    || (a.Poll? && a.w < |s.ws| && s.ws[a.w].phase.Waking? && s.ws[a.w].phase.ready != []
        && s.ws[a.w].phase.ready[0] == x)
  }

  ghost predicate NobodyWakes(s: State, acts: seq<Action>, x: TaskId)
    requires Run(s, acts)
  {
    acts == [] ||
    (var k := |acts| - 1; NobodyWakes(s, acts[..k], x) && !Wakes(Exec(s, acts[..k]), acts[k], x))
  }

  /** Whom worker `w` wakes as the poller along a run, in order. */
  ghost function WokenByPoller(s: State, acts: seq<Action>, w: nat): seq<TaskId>
    requires Run(s, acts)
  {
    if acts == [] then []
    else
      var (before, r) := (WokenByPoller(s, acts[..|acts| - 1], w), Exec(s, acts[..|acts| - 1]));
      var a := acts[|acts| - 1];
      if a.Poll? && a.w == w && r.ws[w].phase.Waking? && r.ws[w].phase.ready != []
      then before + [r.ws[w].phase.ready[0]] else before
  }

  /** Of the tasks reported, `report`, the poller `w` has woken `done`. */
  ghost predicate PollerAt(s: State, w: nat, report: seq<TaskId>, done: seq<TaskId>) {
    if |done| < |report| then done <= report && At(s, w, Waking(report[|done|..])) else report <= done
  }

  lemma PollerStep(s: State, a: Action, w: nat, report: seq<TaskId>, done: seq<TaskId>)
    requires Enabled(s, a) && |done| < |report| && PollerAt(s, w, report, done)
    ensures PollerAt(Apply(s, a), w, report, if a.Poll? && a.w == w then done + [report[|done|]] else done)
  {
    if !a.Net? && !a.AddWorker? {
      OneWorkerMoves(s, a);
    }
    if a.Poll? && a.w == w {
      assert report[|done|..][1..] == report[|done + [report[|done|]]|..];
    }
  }

  /** The poller wakes the tasks reported to it in the order of the report, each once. */
  lemma {:induction false} PollerWakesInOrder(s: State, acts: seq<Action>, w: nat, report: seq<TaskId>)
    requires Run(s, acts) && At(s, w, Waking(report))
    ensures PollerAt(Exec(s, acts), w, report, WokenByPoller(s, acts, w))
  {
    if acts == [] {
      assert report[0..] == report;
    } else {
      var k := |acts| - 1;
      PollerWakesInOrder(s, acts[..k], w, report);
      var done := WokenByPoller(s, acts[..k], w);
      if |done| < |report| {
        PollerStep(Exec(s, acts[..k]), acts[k], w, report, done);
      }
    }
  }

  /** Nothing makes up for it: a task that is filed stays filed along every run in which no
      further `goready` is made for it. */
  lemma {:induction false} StaysFiled(s: State, acts: seq<Action>, x: TaskId)
    requires Run(s, acts) && x in s.q.waiting && NobodyWakes(s, acts, x)
    ensures x in Exec(s, acts).q.waiting
  {
    if acts != [] {
      var k := |acts| - 1;
      StaysFiled(s, acts[..k], x);
      FiledStep(Exec(s, acts[..k]), acts[k], x);
    }
  }

  lemma FiledStep(s: State, a: Action, x: TaskId)
    requires Enabled(s, a) && x in s.q.waiting && !Wakes(s, a, x)
    ensures x in Apply(s, a).q.waiting
  {
  }

  /** The counters are exact: `idle_workers` is the number of idle workers, `all_workers`
      of those registered and not gone, so `all_workers - 1` never underflows. */
  lemma Accounting(n: nat, m: nat, acts: seq<Action>, w: nat)
    requires Run(Init(n, m), acts)
    ensures var s := Exec(Init(n, m), acts);
      && s.q.idle == NumIdle(s) && s.q.all == NumRegistered(s)
      && (w < |s.ws| && Registered(s.ws[w]) ==> s.q.all >= 1)
      && (w < |s.ws| && IsIdle(s.ws[w]) ==> s.q.idle >= 1)
  {
    RunKeepsInv(n, m, acts);
    var s := Exec(Init(n, m), acts);
    CountNone(s.ws, Registered);
    CountNone(s.ws, IsIdle);
  }
}
