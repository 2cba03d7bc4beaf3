/** The M:N scheduler of channel.rs and timer.rs: any number of worker threads over one
    global queue, a timer heap and one poller at a time.

    A worker's `Phase` says between which of its locked sections it stands; an action is
    one such section (or one step of the task it runs), and actions of different workers
    interleave freely.  Leaving the condition variable is possible at any time, so
    notifications play no part.  Tasks may wait on timers and, through `Enlist` and
    `Rouse`, on anything else that keeps to the wake discipline of ParkWake. */
module Workers {
  import opened Common
  import PW = ParkWake
  import opened GlobalQueues

  datatype TimerEntry = TimerEntry(wake: int, id: TaskId)

  datatype Phase =
    | Unstarted
    | Top                                            // about to look at the queue
    | TryPoll                                        // found it empty
    | PollLook                                       // holds POLLING, about to look at the heap
    | SawNone                                        // saw no timer, about to release POLLING
    | CheckStart(first: bool)                        // entering check_timers
    | Checking(first: bool, now: int)                // about to lock the heap
    | Firing(first: bool, now: int, t: TaskId)       // popped t's entry, about to ready t
    | Napping                                        // sleeping until the next timer
    | Releasing                                      // done polling, about to release POLLING
    | PreIdle                                        // about to read has_timers
    | GoingIdle(sawTimers: bool)                     // about to lock the queue and go idle
    | Idle                                           // in condvar.wait
    | Active                                         // its current task executes
    | Switched                                       // the task switched back
    | Exited(goingIdle: bool)

  datatype Worker = Worker(phase: Phase, current: Option<Task>)

  /** Auxiliary: where a live task is, and what became of its timer entry. */
  datatype Place = InRunnable | InWaiting | OnWorker(w: nat)
  datatype Timer = Heaped(wake: int) | Fired(w: nat)

  datatype State = State(
    q: Queue,
    ws: seq<Worker>,
    polling: bool,
    heap: multiset<TimerEntry>,
    clock: int,
    // auxiliary
    park: PW.State,
    place: map<TaskId, Place>,
    sleep: map<TaskId, Timer>,
    wakeAt: map<TaskId, int>      // the wake time each task last asked for
  )

  datatype Action =
    | Start(w: nat)
    | Take(w: nat)
    | Move(w: nat, to: Phase)
    | Fire(w: nat, e: TimerEntry)
    | FireReady(w: nat)
    | Rest(w: nat)                     // go idle
    | Wake(w: nat)                     // leave condvar.wait
    | Spawn(w: nat)
    | AddWorker(w: nat)                // enter_blocking
    | Enlist(w: nat)                   // the task registers with some waker
    | Rouse(w: nat, x: TaskId)         // the task readies x
    | Sleep(w: nat, wake: int)
    | Park(w: nat)
    | Yield(w: nat)
    | Finish(w: nat)
    | Settle(w: nat)
    | Tick(d: nat)

  /** Before the runtime starts: `n` tasks, `m` worker threads. */
  function Init(n: nat, m: nat): State {
    State(Fresh(n), seq(m, i => Worker(Unstarted, None)), false, multiset{}, 0,
          PW.Init(n), map t | t in FirstIds(n) :: InRunnable, map[], map[])
  }

  predicate NoneExpired(s: State, now: int) {
    forall e :: e in s.heap ==> e.wake > now
  }

  /** The moves of a worker that touch neither the queue nor the heap. */
  predicate CanMove(s: State, from: Phase, to: Phase) {
    match from
    case Top => to == TryPoll && s.q.runnable == []
    case TryPoll => to == if s.polling then PreIdle else PollLook
    case PollLook => to == if s.heap == multiset{} then SawNone else CheckStart(true)
    case SawNone => to == PreIdle
    case CheckStart(first) => to == Checking(first, s.clock)
    case Checking(first, now) =>
      NoneExpired(s, now) && to == if first && s.heap != multiset{} then Napping else Releasing
    case Napping => to == CheckStart(false)
    case Releasing => to == Top
    case PreIdle => to == GoingIdle(s.heap != multiset{})
    case _ => false
  }

  function PollingAfter(polling: bool, from: Phase, to: Phase): bool {
    if to.PollLook? then true
    else if from.SawNone? || from.Releasing? then false
    else polling
  }

  /** Worker `w` is in phase `p` of its loop. */
  predicate At(s: State, w: nat, p: Phase) {
    w < |s.ws| && s.ws[w].phase == p
  }

  predicate Executes(s: State, w: nat) {
    At(s, w, Active) && s.ws[w].current.Some?
  }

  /** The task worker `w` runs. */
  function Cur(s: State, w: nat): Task
    requires w < |s.ws| && s.ws[w].current.Some?
  {
    s.ws[w].current.value
  }

  /** It runs a task that is free to act. */
  predicate Acts(s: State, w: nat) {
    Executes(s, w) && Cur(s, w).id !in s.park.parking
  }

  predicate Enabled(s: State, a: Action) {
    match a
    case Start(w) => At(s, w, Unstarted)
    case Take(w) => At(s, w, Top) && s.q.runnable != []
    case Move(w, to) => w < |s.ws| && CanMove(s, s.ws[w].phase, to)
    case Fire(w, e) =>
      w < |s.ws| && s.ws[w].phase.Checking? && e in s.heap && e.wake <= s.ws[w].phase.now
      && (forall f :: f in s.heap ==> e.wake <= f.wake)
    case FireReady(w) => w < |s.ws| && s.ws[w].phase.Firing?
    case Rest(w) => w < |s.ws| && s.ws[w].phase.GoingIdle?
    case Wake(w) => At(s, w, Idle)
    case Spawn(w) => Acts(s, w)
    case AddWorker(w) => Acts(s, w)
    case Enlist(w) => Acts(s, w)
    case Rouse(w, x) => Acts(s, w) && x in s.park.reg && x !in s.sleep
    case Sleep(w, wake) => Acts(s, w)
    case Park(w) => Executes(s, w) && Cur(s, w).id in s.park.parking
    case Yield(w) => Acts(s, w)
    case Finish(w) => Acts(s, w)
    case Settle(w) => At(s, w, Switched) && s.ws[w].current.Some?
    case Tick(d) => true
  }

  function LabelOf(s: State, a: Action): PW.Label
    requires Enabled(s, a)
  {
    match a
    case FireReady(w) => PW.Ready(s.ws[w].phase.t)
    case Spawn(_) => PW.Spawn
    case Enlist(w) => PW.Register(Cur(s, w).id)
    case Rouse(_, x) => PW.Ready(x)
    case Sleep(w, _) => PW.Register(Cur(s, w).id)
    case Finish(w) => PW.Finish(Cur(s, w).id)
    case Settle(w) => if Cur(s, w).state == Waiting then PW.Commit(Cur(s, w).id) else PW.Silent
    case _ => PW.Silent
  }

  function SetWorker(s: State, w: nat, p: Phase, current: Option<Task>): State
    requires w < |s.ws|
  {
    s.(ws := s.ws[w := Worker(p, current)])
  }

  /** `goready(x)`, with the auxiliary place of `x`. */
  function Readied(s: State, x: TaskId): State {
    s.(q := Goready(s.q, x), place := if x in s.q.waiting then s.place[x := InRunnable] else s.place)
  }

  function Assigned(s: State, w: nat, task: Task): State
    requires w < |s.ws|
  {
    SetWorker(s, w, Active, Some(task)).(place := s.place[task.id := OnWorker(w)])
  }

  function ApplyWake(s: State, w: nat): State
    requires w < |s.ws|
  {
    var (q, r) := WakeUp(s.q, false, s.heap != multiset{});
    match r
    case Leaves => SetWorker(s.(q := q), w, Exited(false), None)
    case Runs(task) => Assigned(s.(q := q), w, task)
    case Loops => SetWorker(s.(q := q), w, Top, None)
  }

  function ApplySettle(s: State, w: nat): State
    requires w < |s.ws| && s.ws[w].current.Some?
  {
    var task := Cur(s, w);
    var s1 := SetWorker(s, w, Top, None);
    match task.state
    case Dead => s1
    case Waiting =>
      s1.(q := CommitPark(s.q, task),
          place := s.place[task.id := if task.id in s.q.pending then InRunnable else InWaiting])
    case _ => s1.(q := PutBack(s.q, task), place := s.place[task.id := InRunnable])
  }

  /** What an action does, but for the protocol state. */
  function Effect(s: State, a: Action): State
    requires Enabled(s, a)
  {
    match a
    case Start(w) => SetWorker(s.(q := s.q.(all := s.q.all + 1)), w, Top, None)
    case Take(w) => Assigned(s.(q := Pop(s.q).0), w, Pop(s.q).1)
    case Move(w, to) =>
      SetWorker(s.(polling := PollingAfter(s.polling, s.ws[w].phase, to)), w, to, None)
    case Fire(w, e) =>
      SetWorker(s.(heap := s.heap - multiset{e}, sleep := s.sleep[e.id := Fired(w)]), w,
                Firing(s.ws[w].phase.first, s.ws[w].phase.now, e.id), None)
    case FireReady(w) =>
      var p := s.ws[w].phase;
      SetWorker(Readied(s, p.t).(sleep := s.sleep - {p.t}), w, Checking(p.first, p.now), None)
    case Rest(w) =>
      var (q, leaves) := GoIdle(s.q, false, s.ws[w].phase.sawTimers);
      SetWorker(s.(q := q), w, if leaves then Exited(true) else Idle, None)
    case Wake(w) => ApplyWake(s, w)
    case Spawn(w) => s.(q := Push(s.q, s.park.next), place := s.place[s.park.next := InRunnable])
    case AddWorker(w) => s.(ws := s.ws + [Worker(Unstarted, None)])
    case Enlist(w) => s
    case Rouse(w, x) => Readied(s, x)
    case Sleep(w, wake) =>
      var t := Cur(s, w).id;
      s.(heap := s.heap + multiset{TimerEntry(wake, t)}, sleep := s.sleep[t := Heaped(wake)],
          wakeAt := s.wakeAt[t := wake])
    case Park(w) => SetWorker(s, w, Switched, Some(Cur(s, w).(state := Waiting)))
    case Yield(w) => SetWorker(s, w, Switched, s.ws[w].current)
    case Finish(w) =>
      SetWorker(s, w, Switched, Some(Cur(s, w).(state := Dead))).(place := s.place - {Cur(s, w).id})
    case Settle(w) => ApplySettle(s, w)
    case Tick(d) => s.(clock := s.clock + d)
  }

  function Apply(s: State, a: Action): State
    requires Enabled(s, a)
  {
    Effect(s, a).(park := PW.Apply(s.park, LabelOf(s, a)))
  }

  // ---- Runs ------------------------------------------------------------------------------

  ghost predicate Run(s: State, acts: seq<Action>)
    decreases |acts|, 0
  {
    acts == [] ||
    (var k := |acts| - 1; Run(s, acts[..k]) && Enabled(Exec(s, acts[..k]), acts[k]))
  }

  ghost function Exec(s: State, acts: seq<Action>): State
    requires Run(s, acts)
    decreases |acts|, 1
  {
    if acts == [] then s else Apply(Exec(s, acts[..|acts| - 1]), acts[|acts| - 1])
  }

  /** `s` occurs in a run of the runtime from a fresh queue with `m` initial workers. */
  ghost predicate Reaches(s: State, n: nat, m: nat, acts: seq<Action>) {
    Run(Init(n, m), acts) && s == Exec(Init(n, m), acts)
  }

  ghost predicate Reachable(s: State) {
    exists n, m, acts :: m >= 1 && Reaches(s, n, m, acts)
  }

  // ---- Invariant: tasks -----------------------------------------------------------------

  predicate HasTask(p: Phase) {
    p.Active? || p.Switched?
  }

  ghost predicate WorkerOk(s: State, w: nat)
    requires w < |s.ws|
  {
    && (s.ws[w].current.Some? <==> HasTask(s.ws[w].phase))
    && (HasTask(s.ws[w].phase) ==>
          var task := Cur(s, w);
          && (s.ws[w].phase.Active? ==> task.state == Running)
          && (s.ws[w].phase.Switched? ==> task.state != Runnable)
          && (task.state != Dead ==> task.id in s.place && s.place[task.id] == OnWorker(w))
          && (s.ws[w].phase.Switched? && task.state != Dead ==>
                (task.state == Waiting <==> task.id in s.park.parking)))
  }

  ghost predicate PlaceOk(s: State, t: TaskId)
    requires t in s.place
  {
    match s.place[t]
    case InRunnable => Task(t, Runnable) in s.q.runnable && t !in s.park.parking
    case InWaiting => t in s.q.waiting
    case OnWorker(w) =>
      w < |s.ws| && s.ws[w].current.Some? && Cur(s, w).id == t && Cur(s, w).state != Dead
  }

  /** Each live task is in exactly one place, and its state agrees with the place. */
  ghost predicate Placed(s: State) {
    && NoDup(s.q.runnable)
    && (forall task :: task in s.q.runnable ==>
          task.state == Runnable && task.id in s.place && s.place[task.id] == InRunnable)
    && (forall t :: t in s.q.waiting ==>
          s.q.waiting[t] == Task(t, Waiting) && t in s.place && s.place[t] == InWaiting)
    && (forall w :: 0 <= w < |s.ws| ==> WorkerOk(s, w))
    && (forall t :: t in s.place ==> PlaceOk(s, t))
  }

  /** The queue agrees with the park/wake protocol. */
  ghost predicate Coupled(s: State) {
    && PW.Inv(s.park)
    && s.place.Keys == s.park.live
    && s.q.waiting.Keys == s.park.waiting
    && s.q.pending == s.park.pending
  }

  // ---- Invariant: timers ----------------------------------------------------------------

  ghost predicate PollerOk(s: State, w: nat)
    requires w < |s.ws|
  {
    match s.ws[w].phase
    case Checking(_, now) => now <= s.clock
    case Firing(_, now, t) => now <= s.clock && t in s.sleep && s.sleep[t] == Fired(w)
    case _ => true
  }

  ghost predicate SleepOk(s: State, t: TaskId)
    requires t in s.sleep
  {
    && t in s.park.reg && t in s.wakeAt
    && match s.sleep[t]
       case Heaped(wake) => wake == s.wakeAt[t] && TimerEntry(wake, t) in s.heap
       case Fired(w) =>
         w < |s.ws| && s.ws[w].phase.Firing? && s.ws[w].phase.t == t && s.wakeAt[t] <= s.ws[w].phase.now
  }

  ghost predicate TimersOk(s: State) {
    && (forall e :: e in s.heap ==> s.heap[e] == 1 && e.id in s.sleep && s.sleep[e.id] == Heaped(e.wake))
    && (forall t :: t in s.sleep ==> SleepOk(s, t))
    && (forall w :: 0 <= w < |s.ws| ==> PollerOk(s, w))
    && (forall t :: t in s.wakeAt ==> s.wakeAt[t] <= s.clock || t in s.sleep)
  }

  // ---- Invariant: workers ----------------------------------------------------------------

  predicate IsPoller(p: Phase) {
    p.PollLook? || p.SawNone? || p.CheckStart? || p.Checking? || p.Firing? || p.Napping? || p.Releasing?
  }

  predicate IsRegistered(p: Phase) {
    !p.Unstarted? && !p.Exited?
  }

  predicate IsIdle(w: Worker) { w.phase.Idle? }
  predicate LeftGoingIdle(w: Worker) { w.phase == Exited(true) }
  predicate HasExited(w: Worker) { w.phase.Exited? }
  predicate Registered(w: Worker) { IsRegistered(w.phase) }
  predicate Polls(w: Worker) { IsPoller(w.phase) }

  ghost function NumIdle(s: State): nat { Count(s.ws, IsIdle) }
  ghost function NumLeftIdle(s: State): nat { Count(s.ws, LeftGoingIdle) }
  ghost function NumExited(s: State): nat { Count(s.ws, HasExited) }
  ghost function NumRegistered(s: State): nat { Count(s.ws, Registered) }
  ghost function NumPollers(s: State): nat { Count(s.ws, Polls) }

  ghost predicate Counted(s: State) {
    && s.q.idle == NumIdle(s) + NumLeftIdle(s)
    && s.q.all == NumRegistered(s)
    && NumPollers(s) == (if s.polling then 1 else 0)
  }

  /** Phases from which a worker is bound to look at the queue again. */
  predicate WillLook(p: Phase) {
    p.Unstarted? || p.Top? || p.CheckStart? || p.Checking? || p.Firing? || p.Napping? || p.Releasing?
    || p.Active? || p.Switched?
  }

  ghost predicate Attended(s: State) {
    s.q.runnable != [] ==> exists w :: 0 <= w < |s.ws| && WillLook(s.ws[w].phase)
  }

  /** Once a worker has left, there is nothing left to do. */
  ghost predicate ExitsLate(s: State) {
    NumExited(s) > 0 ==> s.park.live == {}
  }

  ghost predicate Inv(s: State) {
    Placed(s) && Coupled(s) && TimersOk(s) && Counted(s) && Attended(s) && ExitsLate(s)
  }
}
