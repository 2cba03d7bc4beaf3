/** What the M:N scheduler guarantees, over every run and every interleaving of any number
    of workers. */
module WorkersTheorems {
  import opened Common
  import PW = ParkWake
  import opened GlobalQueues
  import opened Workers
  import opened WorkersInvariant

  // ---- Task conservation -----------------------------------------------------------------

  /** Worker `w` holds the live task `t`. */
  predicate Holds(s: State, w: nat, t: TaskId) {
    w < |s.ws| && s.ws[w].current.Some? && Cur(s, w).id == t && Cur(s, w).state != Dead
  }

  lemma HeldHere(s: State, w: nat, t: TaskId)
    requires Placed(s) && Holds(s, w, t)
    ensures t in s.place && s.place[t] == OnWorker(w)
    ensures s.ws[w].phase.Active? ==> Cur(s, w).state == Running
    ensures Task(t, Runnable) !in s.q.runnable && t !in s.q.waiting
  {
    assert WorkerOk(s, w);
  }

  /** Every live task is in the queue, in the waiting map or in a worker's slot, and only
      live tasks are. */
  lemma LiveTasksArePlaced(s: State, t: TaskId)
    requires Reachable(s)
    ensures t in s.park.live
       <==> Task(t, Runnable) in s.q.runnable || t in s.q.waiting || exists w: nat :: Holds(s, w, t)
  {
    ReachableInv(s);
    if t in s.place {
      assert PlaceOk(s, t);
      assert s.place[t].OnWorker? ==> Holds(s, s.place[t].w, t);
    }
    if w: nat :| Holds(s, w, t) {
      HeldHere(s, w, t);
    }
  }

  /** It is in only one of them, once, and with the state that belongs there. */
  lemma OnePlaceEach(s: State, t: TaskId)
    requires Reachable(s)
    ensures Task(t, Runnable) in s.q.runnable ==> t !in s.q.waiting
    ensures NoDup(s.q.runnable) && forall task :: task in s.q.runnable ==> task.state == Runnable
    ensures t in s.q.waiting ==> s.q.waiting[t] == Task(t, Waiting)
    ensures forall w: nat :: Holds(s, w, t) ==>
              && Task(t, Runnable) !in s.q.runnable && t !in s.q.waiting
              && (s.ws[w].phase.Active? ==> Cur(s, w).state == Running)
    ensures forall v: nat, w: nat :: Holds(s, v, t) && Holds(s, w, t) ==> v == w
  {
    ReachableInv(s);
    forall w: nat | Holds(s, w, t)
      ensures Task(t, Runnable) !in s.q.runnable && t !in s.q.waiting
      ensures t in s.place && s.place[t] == OnWorker(w)
      ensures s.ws[w].phase.Active? ==> Cur(s, w).state == Running
    {
      HeldHere(s, w, t);
    }
  }

  /** A wake token only ever belongs to a task that still runs on some worker: it has
      registered, and has yet to be filed. */
  lemma TokensBelongToParkingTasks(s: State, t: TaskId)
    requires Reachable(s) && t in s.q.pending
    ensures t !in s.q.waiting && t in s.park.parking && t !in s.park.reg
    ensures exists w: nat :: Holds(s, w, t)
  {
    ReachableInv(s);
    assert PlaceOk(s, t);
    assert Holds(s, s.place[t].w, t);
  }

  /** How many tasks a run dispatches. */
  ghost function Dispatches(s: State, acts: seq<Action>): nat
    requires Run(s, acts)
  {
    if acts == [] then 0
    else
      var k := |acts| - 1;
      Dispatches(s, acts[..k]) + if Dispatching(Exec(s, acts[..k]), acts[k]) then 1 else 0
  }

  predicate Dispatching(s: State, a: Action)
    requires Enabled(s, a)
  {
    a.Take? || (a.Wake? && WakeUp(s.q, false, s.heap != multiset{}).1.Runs?)
  }

  /** First come, first served: the task at position `i` stays in line behind exactly
      those before it. */
  lemma {:induction false} StaysInLine(s: State, acts: seq<Action>, i: nat)
    requires Run(s, acts) && i < |s.q.runnable|
    requires Dispatches(s, acts) <= i
    ensures InLine(s.q.runnable, Exec(s, acts).q.runnable, i, Dispatches(s, acts))
  {
    if acts != [] {
      var k := |acts| - 1;
      var now := Exec(s, acts[..k]);
      StaysInLine(s, acts[..k], i);
      QueueShifts(now, acts[k]);
      InLineStep(s.q.runnable, now.q.runnable, Apply(now, acts[k]).q.runnable, Dispatching(now, acts[k]),
                 i, Dispatches(s, acts[..k]));
    }
  }

  /** It is the one dispatched after exactly `i` other dispatches. */
  lemma DispatchOrder(s: State, acts: seq<Action>, i: nat, a: Action)
    requires Run(s, acts) && i < |s.q.runnable|
    requires Dispatches(s, acts) == i
    requires Enabled(Exec(s, acts), a) && Dispatching(Exec(s, acts), a)
    ensures var s' := Apply(Exec(s, acts), a);
      a.w < |s'.ws| && s'.ws[a.w] == Worker(Active, Some(s.q.runnable[i].(state := Running)))
  {
    StaysInLine(s, acts, i);
    FrontDispatched(s, Exec(s, acts), i, a);
  }

  lemma FrontDispatched(s: State, now: State, i: nat, a: Action)
    requires InLine(s.q.runnable, now.q.runnable, i, i) && Enabled(now, a) && Dispatching(now, a)
    ensures a.w < |Apply(now, a).ws|
    ensures Apply(now, a).ws[a.w] == Worker(Active, Some(s.q.runnable[i].(state := Running)))
  {
    DispatchedTask(now, a);
  }

  lemma QueueShifts(s: State, a: Action)
    requires Enabled(s, a)
    ensures Advances(s.q.runnable, Effect(s, a).q.runnable, Dispatching(s, a))
  {
    if a.Wake? {
      assert Effect(s, a).q == WakeUp(s.q, false, s.heap != multiset{}).0;
    }
  }

  lemma DispatchedTask(s: State, a: Action)
    requires Enabled(s, a) && Dispatching(s, a)
    ensures s.q.runnable != [] && a.w < |Apply(s, a).ws|
    ensures Apply(s, a).ws[a.w] == Worker(Active, Some(s.q.runnable[0].(state := Running)))
  {
  }

  // ---- No stranded task ------------------------------------------------------------------

  /** If a task is runnable, some worker is bound to look at the queue again, although
      workers go idle without a second look and a push may notify nobody. */
  lemma NoStrandedTask(s: State)
    requires Reachable(s)
    ensures s.q.runnable != [] ==> exists w :: 0 <= w < |s.ws| && WillLook(s.ws[w].phase)
    ensures (forall w :: 0 <= w < |s.ws| ==> s.ws[w].phase.Idle? || s.ws[w].phase.Exited?) ==> s.q.runnable == []
  {
    ReachableInv(s);
  }

  // ---- Shutdown -----------------------------------------------------------------------------

  /** No worker leaves early: once any has returned from its loop, every task ever created
      is dead, nothing is queued, filed or pending, and no timer is outstanding. */
  lemma ExitSafety(s: State, w: nat)
    requires Reachable(s) && w < |s.ws| && s.ws[w].phase.Exited?
    ensures s.park.live == {}
    ensures s.q.runnable == [] && s.q.waiting == map[] && s.q.pending == {} && s.heap == multiset{}
    ensures forall v: nat, t :: !Holds(s, v, t)
  {
    ReachableInv(s);
    Witnessed(s, HasExited, w);
    DeadIsEmpty(s);
    forall v: nat, t ensures !Holds(s, v, t) {
      if Holds(s, v, t) {
        HeldIsLive(s, v);
      }
    }
  }

  lemma HeldIsLive(s: State, w: nat)
    requires Placed(s) && Coupled(s) && w < |s.ws| && s.ws[w].current.Some? && Cur(s, w).state != Dead
    ensures Cur(s, w).id in s.park.live
  {
    assert WorkerOk(s, w);
  }

  lemma QueuedIsLive(s: State)
    requires Placed(s) && Coupled(s) && s.q.runnable != []
    ensures s.q.runnable[0].id in s.park.live
  {
    assert s.q.runnable[0] in s.q.runnable;
  }

  lemma SleeperIsLive(s: State, e: TimerEntry)
    requires Coupled(s) && TimersOk(s) && e in s.heap
    ensures e.id in s.park.live
  {
    assert SleepOk(s, e.id);
  }

  lemma DeadIsEmpty(s: State)
    requires Placed(s) && Coupled(s) && TimersOk(s) && s.park.live == {}
    ensures s.q.runnable == [] && s.q.waiting == map[] && s.q.pending == {} && s.heap == multiset{}
  {
    if s.q.runnable != [] {
      QueuedIsLive(s);
    }
    assert s.q.waiting.Keys == {};
    forall e ensures e !in s.heap {
      if e in s.heap {
        SleeperIsLive(s, e);
      }
    }
  }

  /** The counters: `idle_workers` counts the idle workers and those that left while going
      idle, `all_workers` those registered and not gone; neither underflows. */
  lemma WorkerAccounting(s: State)
    requires Reachable(s)
    ensures s.q.idle == NumIdle(s) + NumLeftIdle(s)
    ensures s.q.all == NumRegistered(s)
    ensures forall w: nat :: At(s, w, Idle) ==> s.q.idle >= 1 && s.q.all >= 1
    ensures forall w: nat :: w < |s.ws| && s.ws[w].phase.GoingIdle? ==> s.q.all >= 1
  {
    ReachableInv(s);
    forall w: nat | w < |s.ws| && Registered(s.ws[w])
      ensures NumRegistered(s) >= 1 && (s.ws[w].phase.Idle? ==> NumIdle(s) >= 1)
    {
      Witnessed(s, Registered, w);
      if s.ws[w].phase.Idle? {
        Witnessed(s, IsIdle, w);
      }
    }
  }

  /** At most one worker polls at a time. */
  lemma OnePoller(s: State, v: nat, w: nat)
    requires Reachable(s)
    requires v < |s.ws| && w < |s.ws| && Polls(s.ws[v]) && Polls(s.ws[w])
    ensures v == w && s.polling
  {
    ReachableInv(s);
    Witnessed(s, Polls, v);
    if v != w {
      var mid := s.(ws := s.ws[v := Worker(Top, None)]);
      CountersMove(s, mid, v);
      Witnessed(mid, Polls, w);
    }
  }

  /** After the first exit, every registered worker is idle and the counters are one off. */
  ghost predicate Closing(s: State) {
    && Inv(s) && NumLeftIdle(s) == 1
    && (forall w :: 0 <= w < |s.ws| ==>
          s.ws[w].phase.Unstarted? || s.ws[w].phase.Idle? || s.ws[w].phase.Exited?)
  }

  /** The first worker to leave always does so while going idle. */
  lemma FirstExitCloses(s: State, a: Action)
    requires Reachable(s) && NumExited(s) == 0 && Enabled(s, a) && NumExited(Apply(s, a)) > 0
    ensures a.Rest? && Closing(Apply(s, a))
  {
    ReachableInv(s);
    StepKeepsInv(s, a);
    FirstExit(s, a);
    OneWorkerMoves(s, a);
    var s' := Apply(s, a);
    CountersMove(s, s', a.w);
    CountNone(s.ws, HasExited);
    CountNone(s.ws, LeftGoingIdle);
    assert HasExited(s'.ws[a.w]);
    forall i | 0 <= i < |s'.ws| && i != a.w
      ensures s'.ws[i].phase.Unstarted? || s'.ws[i].phase.Idle? || s'.ws[i].phase.Exited?
    {
      assert s'.ws[i] == s.ws[i];
    }
  }

  /** Exactly when a worker leaves while going idle: no task is alive, it saw no timer, and
      those idle and those that left this way before make up the others registered. */
  lemma RestExitsIff(s: State, w: nat)
    requires Reachable(s) && Enabled(s, Rest(w))
    ensures w < |Apply(s, Rest(w)).ws|
    ensures Apply(s, Rest(w)).ws[w].phase.Exited?
       <==> s.park.live == {} && !s.ws[w].phase.sawTimers && NumIdle(s) + NumLeftIdle(s) + 1 == NumRegistered(s)
  {
    ReachableInv(s);
    StepKeepsInv(s, Rest(w));
    OneWorkerMoves(s, Rest(w));
    if s.park.live == {} {
      DeadIsEmpty(s);
    }
    if Apply(s, Rest(w)).ws[w].phase.Exited? {
      Witnessed(Apply(s, Rest(w)), HasExited, w);
    }
  }

  /** And exactly when one leaves after waking up: no task is alive, no timer is pending, and
      those idle and those that left while going idle are one more than the registered. */
  lemma WakeExitsIff(s: State, w: nat)
    requires Reachable(s) && Enabled(s, Wake(w))
    ensures w < |Apply(s, Wake(w)).ws|
    ensures Apply(s, Wake(w)).ws[w].phase.Exited?
       <==> s.park.live == {} && s.heap == multiset{} && NumIdle(s) + NumLeftIdle(s) == NumRegistered(s) + 1
  {
    ReachableInv(s);
    StepKeepsInv(s, Wake(w));
    OneWorkerMoves(s, Wake(w));
    LeavesIff(s.q, s.heap != multiset{});
    if s.park.live == {} {
      DeadIsEmpty(s);
    }
    if Apply(s, Wake(w)).ws[w].phase.Exited? {
      Witnessed(Apply(s, Wake(w)), HasExited, w);
      ParkStays(s, w);
    }
  }

  lemma LeavesIff(q: Queue, timers: bool)
    ensures PhaseAwake(WakeUp(q, false, timers).1).Exited?
       <==> q.runnable == [] && q.waiting == map[] && q.pending == {} && !timers && q.idle - 1 == q.all
  {
  }

  lemma ParkStays(s: State, w: nat)
    requires Enabled(s, Wake(w))
    ensures Apply(s, Wake(w)).park == s.park
  {
    assert LabelOf(s, Wake(w)) == PW.Silent;
  }

  ghost predicate OthersIdle(s: State, w: nat) {
    forall i :: 0 <= i < |s.ws| && i != w && IsRegistered(s.ws[i].phase) ==> s.ws[i].phase.Idle?
  }

  /** For the first to leave that means that every other registered worker is idle. */
  lemma FirstExitIff(s: State, w: nat)
    requires Reachable(s) && NumExited(s) == 0 && Enabled(s, Rest(w))
    ensures w < |Apply(s, Rest(w)).ws|
    ensures Apply(s, Rest(w)).ws[w].phase.Exited?
       <==> s.park.live == {} && !s.ws[w].phase.sawTimers && OthersIdle(s, w)
  {
    RestExitsIff(s, w);
    CountNone(s.ws, HasExited);
    CountNone(s.ws, LeftGoingIdle);
    OthersIdleIff(s, w);
  }

  lemma OthersIdleIff(s: State, w: nat)
    requires w < |s.ws| && s.ws[w].phase.GoingIdle?
    ensures OthersIdle(s, w) <==> NumIdle(s) + 1 == NumRegistered(s)
  {
    var mid := s.(ws := s.ws[w := Worker(Idle, None)]);
    CountersMove(s, mid, w);
    CountSubset(mid.ws, IsIdle, Registered);
    if OthersIdle(s, w) {
      CountSubset(mid.ws, Registered, IsIdle);
    }
    assert forall i :: 0 <= i < |s.ws| && i != w ==> mid.ws[i] == s.ws[i];
  }

  /** A worker that comes late stays: once a worker has left while going idle, a worker that
      goes idle when all others registered are idle waits instead of leaving. */
  lemma LateWorkerStays(s: State, w: nat)
    requires Reachable(s) && NumLeftIdle(s) >= 1 && Enabled(s, Rest(w)) && OthersIdle(s, w)
    ensures w < |Apply(s, Rest(w)).ws| && Apply(s, Rest(w)).ws[w].phase == Idle
  {
    RestExitsIff(s, w);
    OthersIdleIff(s, w);
    OneWorkerMoves(s, Rest(w));
  }

  /** From then on, if no further worker registers, every worker that wakes up leaves, and
      nothing else happens.  The counters end at idle 1 and all 0. */
  lemma {:induction false} ShutdownCascade(s: State, acts: seq<Action>)
    requires Closing(s) && Run(s, acts)
    requires forall i :: 0 <= i < |acts| ==> !acts[i].Start?
    ensures var s' := Exec(s, acts);
      && Closing(s')
      && s'.q.idle == NumIdle(s') + 1 && s'.q.all == NumIdle(s')
      && NumIdle(s') + Count(acts, (a: Action) => a.Wake?) == NumIdle(s)
  {
    Emptied(s);
    if acts != [] {
      var k := |acts| - 1;
      ShutdownCascade(s, acts[..k]);
      ClosingStep(Exec(s, acts[..k]), acts[k]);
    }
  }

  lemma ClosingStep(s: State, a: Action)
    requires Closing(s) && Enabled(s, a) && !a.Start?
    ensures Closing(Apply(s, a))
    ensures a.Wake? || a.Tick?
    ensures a.Wake? ==>
              && NumIdle(Apply(s, a)) == NumIdle(s) - 1
              && a.w < |Apply(s, a).ws| && Apply(s, a).ws[a.w].phase == Exited(false)
    ensures a.Tick? ==> Apply(s, a).ws == s.ws
    ensures Apply(s, a).q.all == NumIdle(Apply(s, a))
  {
    StepKeepsInv(s, a);
    Emptied(s);
    OnlyWakes(s, a);
    if a.Wake? {
      WakeLeaves(s, a.w);
      CountersMove(s, Apply(s, a), a.w);
    }
    Emptied(Apply(s, a));
  }

  lemma OnlyWakes(s: State, a: Action)
    requires Enabled(s, a) && !a.Start? && s.q.runnable == []
    requires forall w :: 0 <= w < |s.ws| ==>
               s.ws[w].phase.Unstarted? || s.ws[w].phase.Idle? || s.ws[w].phase.Exited?
    ensures a.Wake? || (a.Tick? && Apply(s, a).ws == s.ws)
  {
  }

  lemma Emptied(s: State)
    requires Closing(s)
    ensures s.q.runnable == [] && s.q.waiting == map[] && s.q.pending == {} && s.heap == multiset{}
    ensures NumIdle(s) == s.q.all && s.q.idle == s.q.all + 1
  {
    CountSubset(s.ws, LeftGoingIdle, HasExited);
    CountSubset(s.ws, IsIdle, Registered);
    CountSubset(s.ws, Registered, IsIdle);
    DeadIsEmpty(s);
  }

  lemma WakeLeaves(s: State, w: nat)
    requires Enabled(s, Wake(w))
    requires s.q.runnable == [] && s.q.waiting == map[] && s.q.pending == {} && s.heap == multiset{}
    requires s.q.idle == s.q.all + 1
    ensures Apply(s, Wake(w)).ws == s.ws[w := Worker(Exited(false), None)]
  {
  }

  // ---- Timers ---------------------------------------------------------------------------------

  /** A pending timer belongs to a task that is filed or still on a worker; so while one is
      pending no worker leaves, whatever it read about the heap before. */
  lemma PendingTimerHoldsTask(s: State, e: TimerEntry)
    requires Reachable(s) && e in s.heap
    ensures s.heap[e] == 1 && e.id in s.park.live && NumExited(s) == 0
    ensures e.id in s.q.waiting || exists w: nat :: Holds(s, w, e.id)
  {
    ReachableInv(s);
    assert SleepOk(s, e.id) && PlaceOk(s, e.id);
    assert s.place[e.id].OnWorker? ==> Holds(s, s.place[e.id].w, e.id);
  }

  // ---- An unserved timer -----------------------------------------------------------------------

  /** Phases from which a worker is bound to look at the timer heap again, or runs a task. */
  predicate Serves(p: Phase) {
    WillLook(p) || p.TryPoll? || p.PollLook?
  }

  ghost predicate Served(s: State) {
    s.heap != multiset{} ==> exists w :: 0 <= w < |s.ws| && Serves(s.ws[w].phase)
  }

  /** Worker `w` fails to get the poll flag, with a timer in the heap, and is the last who
      would look at it. */
  ghost predicate GivesUpLast(s: State, w: nat) {
    && At(s, w, TryPoll) && s.polling && s.heap != multiset{}
    && forall i :: 0 <= i < |s.ws| && i != w ==> !Serves(s.ws[i].phase)
  }

  /** Exactly when the timers are abandoned: when the last worker that would look at them
      fails to get the poll flag, because the holder looked before they were there. */
  lemma AbandonedIff(s: State, a: Action)
    requires Reachable(s) && Served(s) && Enabled(s, a)
    ensures !Served(Apply(s, a)) <==> a.Move? && a.to == PreIdle && GivesUpLast(s, a.w)
    ensures !Served(Apply(s, a)) ==> exists v :: 0 <= v < |s.ws| && s.ws[v].phase == SawNone
  {
    ReachableInv(s);
    if a.Move? {
      MoveServes(s, a.w, a.to);
    } else {
      OtherServes(s, a);
    }
    if a.Move? && a.to == PreIdle && GivesUpLast(s, a.w) {
      CountNone(s.ws, Polls);
    }
  }

  lemma MoveServes(s: State, w: nat, to: Phase)
    requires Served(s) && Enabled(s, Move(w, to))
    ensures !Served(Apply(s, Move(w, to))) <==> to == PreIdle && GivesUpLast(s, w)
  {
    var s' := Apply(s, Move(w, to));
    assert s'.ws == s.ws[w := Worker(to, None)] && s'.heap == s.heap;
    if s.heap != multiset{} {
      var i :| 0 <= i < |s.ws| && Serves(s.ws[i].phase);
      if i != w {
        assert s'.ws[i] == s.ws[i];
      } else if Serves(to) {
        assert s'.ws[w].phase == to;
      } else {
        assert s.ws[w].phase.TryPoll? && to == PreIdle;
        assert forall j :: 0 <= j < |s.ws| && j != w ==> s'.ws[j] == s.ws[j];
      }
    }
  }

  lemma OtherServes(s: State, a: Action)
    requires Served(s) && Enabled(s, a) && !a.Move?
    ensures Served(Apply(s, a))
  {
    var s' := Effect(s, a);
    if !a.Sleep? {
      OnlySleepAdds(s, a);
    }
    if a.AddWorker? {
      assert forall i :: 0 <= i < |s.ws| ==> s'.ws[i] == s.ws[i];
    } else if !a.Tick? {
      OneWorkerMoves(s, a);
      KeepsServing(s, a);
      StillServed(s, s', a.w, PhaseAfter(s, a), a.Sleep?);
    }
  }

  lemma StillServed(s: State, s': State, w: nat, p: Phase, slept: bool)
    requires Served(s) && w < |s.ws| && |s'.ws| == |s.ws| && s'.ws == s.ws[w := s'.ws[w]]
    requires s'.ws[w].phase == p && (Serves(s.ws[w].phase) || slept ==> Serves(p))
    requires !slept ==> s'.heap <= s.heap
    ensures Served(s')
  {
    if s'.heap != multiset{} && !Serves(p) {
      var i :| 0 <= i < |s.ws| && Serves(s.ws[i].phase);
      assert s'.ws[i] == s.ws[i];
    }
  }

  lemma KeepsServing(s: State, a: Action)
    requires Enabled(s, a) && !a.Move? && !a.AddWorker? && !a.Tick?
    ensures a.w < |s.ws| && (Serves(s.ws[a.w].phase) ==> Serves(PhaseAfter(s, a)))
    ensures a.Sleep? ==> Serves(PhaseAfter(s, a))
  {
  }

  lemma OnlySleepAdds(s: State, a: Action)
    requires Enabled(s, a) && !a.Sleep?
    ensures Effect(s, a).heap <= s.heap
  {
    if !a.Fire? && !a.FireReady? {
      NoTimerTouched(s, a);
    }
  }

  lemma ReachableStep(s: State, a: Action)
    requires Reachable(s) && Enabled(s, a)
    ensures Reachable(Apply(s, a))
  {
    var n, m, acts :| m >= 1 && Reaches(s, n, m, acts);
    assert (acts + [a])[..|acts|] == acts;
    assert Reaches(Apply(s, a), n, m, acts + [a]);
  }

  lemma MoveTo(s: State, w: nat, to: Phase) returns (s': State)
    requires Reachable(s) && Enabled(s, Move(w, to))
    ensures Reachable(s') && s'.ws == s.ws[w := Worker(to, None)]
    ensures s'.polling == PollingAfter(s.polling, s.ws[w].phase, to)
    ensures s'.q == s.q && s'.heap == s.heap && s'.clock == s.clock && s'.park == s.park
  {
    ReachableStep(s, Move(w, to));
    MoveChanges(s, w, to);
    s' := Apply(s, Move(w, to));
  }

  lemma MoveChanges(s: State, w: nat, to: Phase)
    requires Enabled(s, Move(w, to))
    ensures Apply(s, Move(w, to))
         == s.(ws := s.ws[w := Worker(to, None)], polling := PollingAfter(s.polling, s.ws[w].phase, to))
  {
    assert PW.Apply(s.park, PW.Silent) == s.park;
  }

  lemma StartUp(s: State, w: nat) returns (s': State)
    requires Reachable(s) && Enabled(s, Start(w))
    ensures Reachable(s') && s'.ws == s.ws[w := Worker(Top, None)] && s'.q == s.q.(all := s.q.all + 1)
    ensures s'.polling == s.polling && s'.heap == s.heap && s'.clock == s.clock && s'.park == s.park
  {
    ReachableStep(s, Start(w));
    s' := Apply(s, Start(w));
  }

  lemma RestNow(s: State, w: nat) returns (s': State)
    requires Reachable(s) && w < |s.ws| && s.ws[w].phase == GoingIdle(true)
    ensures Reachable(s') && s'.ws == s.ws[w := Worker(Idle, None)] && s'.q == s.q.(idle := s.q.idle + 1)
    ensures s'.polling == s.polling && s'.heap == s.heap && s'.clock == s.clock
  {
    ReachableStep(s, Rest(w));
    s' := Apply(s, Rest(w));
  }

  /** Task 0 runs on worker 0; worker 1 finds no other task. */
  lemma OneTaskTwoWorkers() returns (s: State)
    ensures Reachable(s) && s.ws == [Worker(Active, Some(Task(0, Running))), Worker(Top, None)]
    ensures s.q.runnable == [] && s.q.pending == {} && s.park.parking == {}
    ensures !s.polling && s.heap == multiset{} && s.clock == 0
  {
    s := Init(1, 2);
    assert Reaches(s, 1, 2, []);
    s := StartUp(s, 0);
    s := StartUp(s, 1);
    FirstTaken(s);
    ReachableStep(s, Take(0));
    s := Apply(s, Take(0));
  }

  lemma FirstTaken(s: State)
    requires Enabled(s, Take(0)) && |s.ws| == 2 && s.q.runnable == [Task(0, Runnable)]
    ensures var s' := Apply(s, Take(0));
      && s'.ws == [Worker(Active, Some(Task(0, Running))), s.ws[1]] && s'.q == s.q.(runnable := [])
      && s'.polling == s.polling && s'.heap == s.heap && s'.clock == s.clock && s'.park == s.park
  {
  }

  /** Worker 1 sees no timer either, and still holds the poll flag when task 0 sleeps. */
  lemma SecondWorkerPolls() returns (s: State)
    ensures Reachable(s) && s.ws == [Worker(Active, Some(Task(0, Running))), Worker(SawNone, None)]
    ensures s.q.runnable == [] && s.q.pending == {} && s.park.parking == {}
    ensures s.polling && s.heap == multiset{} && s.clock == 0
  {
    s := OneTaskTwoWorkers();
    s := MoveTo(s, 1, TryPoll);
    s := MoveTo(s, 1, PollLook);
    s := MoveTo(s, 1, SawNone);
  }

  lemma TaskSleeps(s: State) returns (s': State)
    requires Reachable(s) && |s.ws| == 2 && s.ws[0] == Worker(Active, Some(Task(0, Running)))
    requires s.q.runnable == [] && s.q.pending == {} && s.park.parking == {} && s.heap == multiset{}
    ensures Reachable(s') && s'.ws == [Worker(Top, None), s.ws[1]] && s'.q.runnable == []
    ensures s'.heap == multiset{TimerEntry(5, 0)} && s'.polling == s.polling && s'.clock == s.clock
  {
    ReachableStep(s, Sleep(0, 5));
    s' := Apply(s, Sleep(0, 5));
    assert s'.ws == s.ws && 0 in s'.park.parking && s'.heap == multiset{TimerEntry(5, 0)};
    s' := ParkNow(s');
    s' := SettleNow(s');
  }

  lemma ParkNow(s: State) returns (s': State)
    requires Reachable(s) && |s.ws| == 2 && s.ws[0] == Worker(Active, Some(Task(0, Running)))
    requires 0 in s.park.parking
    ensures Reachable(s') && s'.ws == [Worker(Switched, Some(Task(0, Waiting))), s.ws[1]] && s'.q == s.q
    ensures s'.heap == s.heap && s'.polling == s.polling && s'.clock == s.clock
  {
    ReachableStep(s, Park(0));
    s' := Apply(s, Park(0));
  }

  lemma SettleNow(s: State) returns (s': State)
    requires Reachable(s) && |s.ws| == 2 && s.ws[0] == Worker(Switched, Some(Task(0, Waiting)))
    requires s.q.runnable == [] && s.q.pending == {}
    ensures Reachable(s') && s'.ws == [Worker(Top, None), s.ws[1]] && s'.q.runnable == []
    ensures s'.heap == s.heap && s'.polling == s.polling && s'.clock == s.clock
  {
    ReachableStep(s, Settle(0));
    s' := Apply(s, Settle(0));
  }

  /** A worker that sees the timer goes idle. */
  lemma GoesIdle(s: State, w: nat) returns (s': State)
    requires Reachable(s) && At(s, w, PreIdle) && s.heap != multiset{}
    ensures Reachable(s') && s'.ws == s.ws[w := Worker(Idle, None)]
    ensures s'.polling == s.polling && s'.heap == s.heap && s'.clock == s.clock
    ensures s'.q.runnable == s.q.runnable
  {
    s' := MoveTo(s, w, GoingIdle(true));
    s' := RestNow(s', w);
  }

  /** Worker 0 does not get the poll flag. */
  lemma FirstWorkerIdles() returns (s: State)
    ensures Reachable(s) && s.ws == [Worker(Idle, None), Worker(SawNone, None)]
    ensures s.heap == multiset{TimerEntry(5, 0)} && s.clock == 0
  {
    s := SecondWorkerPolls();
    s := TaskSleeps(s);
    s := FailsToPoll(s, 0);
    s := GoesIdle(s, 0);
  }

  lemma FailsToPoll(s: State, w: nat) returns (s': State)
    requires Reachable(s) && At(s, w, Top) && s.q.runnable == [] && s.polling
    ensures Reachable(s') && s'.ws == s.ws[w := Worker(PreIdle, None)] && s'.polling
    ensures s'.q == s.q && s'.heap == s.heap && s'.clock == s.clock
  {
    s' := MoveTo(s, w, TryPoll);
    s' := MoveTo(s', w, PreIdle);
  }

  /** Timers are not served in all runs: here both workers are idle with a timer in the heap
      that has already expired, and nothing but a spurious wakeup of the condition variable
      will make them look. */
  lemma TimerLeftUnserved() returns (s: State)
    ensures Reachable(s) && s.ws == [Worker(Idle, None), Worker(Idle, None)]
    ensures s.heap == multiset{TimerEntry(5, 0)} && s.clock == 5
  {
    s := FirstWorkerIdles();
    s := MoveTo(s, 1, PreIdle);
    s := GoesIdle(s, 1);
    ReachableStep(s, Tick(5));
    s := Apply(s, Tick(5));
  }

  // ---- The wake protocol -----------------------------------------------------------------------

  ghost function Labels(s: State, acts: seq<Action>): seq<PW.Label>
    requires Run(s, acts)
  {
    if acts == [] then []
    else Labels(s, acts[..|acts| - 1]) + [LabelOf(Exec(s, acts[..|acts| - 1]), acts[|acts| - 1])]
  }

  lemma LabelIsDisciplined(s: State, a: Action)
    requires Inv(s) && Enabled(s, a)
    ensures PW.Enabled(s.park, LabelOf(s, a)) && PW.Disciplined(s.park, LabelOf(s, a))
  {
    if a.FireReady? {
      assert PollerOk(s, a.w) && SleepOk(s, s.ws[a.w].phase.t);
    } else if a.Enlist? || a.Sleep? || a.Finish? {
      CurrentIsActive(s, a.w);
    } else if a.Settle? {
      assert WorkerOk(s, a.w);
    }
  }

  /** The whole scheduler is a disciplined run of the park/wake protocol, and the queue
      object always shows that protocol's state. */
  lemma {:induction false} SchedulerRefinesParkWake(n: nat, m: nat, acts: seq<Action>)
    requires m >= 1 && Run(Init(n, m), acts)
    ensures var s, ls := Exec(Init(n, m), acts), Labels(Init(n, m), acts);
      && PW.Run(PW.Init(n), ls) && s.park == PW.Exec(PW.Init(n), ls)
      && s.q.waiting.Keys == s.park.waiting && s.q.pending == s.park.pending
  {
    InitInv(n, m);
    RunKeepsInv(Init(n, m), acts);
    if acts != [] {
      var k := |acts| - 1;
      var before := Exec(Init(n, m), acts[..k]);
      SchedulerRefinesParkWake(n, m, acts[..k]);
      RunKeepsInv(Init(n, m), acts[..k]);
      LabelIsDisciplined(before, acts[k]);
      PW.ExtendRun(PW.Init(n), Labels(Init(n, m), acts[..k]), LabelOf(before, acts[k]));
    }
  }

  /** Every heap entry yields exactly one `goready` by the time its task runs again, and so
      does every other registration: no wakeup is lost, doubled or left over. */
  lemma WakeupsMatchRegistrations(n: nat, m: nat, acts: seq<Action>, w: nat)
    requires m >= 1 && Run(Init(n, m), acts) && Acts(Exec(Init(n, m), acts), w)
    ensures var t, ls := Cur(Exec(Init(n, m), acts), w).id, Labels(Init(n, m), acts);
      && PW.Occurs(ls, PW.Register(t)) == PW.Occurs(ls, PW.Ready(t)) == PW.Occurs(ls, PW.Commit(t))
      && t !in Exec(Init(n, m), acts).q.pending
  {
    var s := Exec(Init(n, m), acts);
    SchedulerRefinesParkWake(n, m, acts);
    InitInv(n, m);
    RunKeepsInv(Init(n, m), acts);
    CurrentIsActive(s, w);
    PW.ActiveIsSettled(n, Labels(Init(n, m), acts), Cur(s, w).id);
  }
}
