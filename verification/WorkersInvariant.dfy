/** The invariants of Workers hold in every reachable state. */
module WorkersInvariant {
  import opened Common
  import PW = ParkWake
  import opened GlobalQueues
  import opened Workers

  // ---- Tasks ------------------------------------------------------------------------------

  /** A step that moves at most one worker, which runs no task before or after. */
  ghost predicate Sidestep(s: State, s': State) {
    && s'.q.runnable == s.q.runnable && s'.q.waiting == s.q.waiting && s'.q.pending == s.q.pending
    && s'.park == s.park && s'.place == s.place
    && |s.ws| <= |s'.ws|
    && (forall i :: 0 <= i < |s'.ws| && (i >= |s.ws| || s'.ws[i] != s.ws[i]) ==>
          (i < |s.ws| ==> s.ws[i].current.None?) && s'.ws[i].current.None? && !HasTask(s'.ws[i].phase))
  }

  lemma SidestepTasks(s: State, s': State)
    requires Placed(s) && Coupled(s) && Sidestep(s, s')
    ensures Placed(s') && Coupled(s')
  {
    forall t | t in s'.place ensures PlaceOk(s', t) {
      assert PlaceOk(s, t);
    }
    forall w | 0 <= w < |s'.ws| ensures WorkerOk(s', w) {
      assert w < |s.ws| ==> WorkerOk(s, w);
    }
  }

  /** Worker `w` takes the first task, from the top of its loop or after waking up. */
  lemma TakeTasks(s: State, s': State, w: nat)
    requires Placed(s) && Coupled(s)
    requires w < |s.ws| && s.ws[w].current.None? && s.q.runnable != []
    requires s'.q.runnable == s.q.runnable[1..] && s'.q.waiting == s.q.waiting && s'.q.pending == s.q.pending
    requires s'.park == s.park
    requires s'.ws == s.ws[w := Worker(Active, Some(s.q.runnable[0].(state := Running)))]
    requires s'.place == s.place[s.q.runnable[0].id := OnWorker(w)]
    ensures Placed(s') && Coupled(s')
  {
    var task := s.q.runnable[0];
    HeadIsNew(s.q.runnable);
    assert task in s.q.runnable;
    forall t | t in s'.place ensures PlaceOk(s', t) {
      assert PlaceOk(s, t);
    }
    forall i | 0 <= i < |s'.ws| ensures WorkerOk(s', i) {
      assert WorkerOk(s, i);
    }
  }

  lemma SpawnTasks(s: State, s': State)
    requires Placed(s) && Coupled(s)
    requires s'.q.runnable == s.q.runnable + [Task(s.park.next, Runnable)]
    requires s'.place == s.place[s.park.next := InRunnable]
    requires s'.q.waiting == s.q.waiting && s'.q.pending == s.q.pending && s'.ws == s.ws
    requires s'.park == PW.Apply(s.park, PW.Spawn)
    ensures Placed(s') && Coupled(s')
  {
    PW.StepInv(s.park, PW.Spawn);
    var t := s.park.next;
    assert t !in s.place;
    forall x | x in s'.place ensures PlaceOk(s', x) {
      assert x in s.place ==> PlaceOk(s, x);
    }
    forall i | 0 <= i < |s'.ws| ensures WorkerOk(s', i) {
      assert WorkerOk(s, i);
    }
  }

  lemma ReadyTasks(s: State, s': State, x: TaskId)
    requires Placed(s) && Coupled(s) && x in s.park.reg
    requires s'.q.runnable == Goready(s.q, x).runnable && s'.q.waiting == Goready(s.q, x).waiting
    requires s'.q.pending == Goready(s.q, x).pending
    requires s'.ws == s.ws && s'.park == PW.Apply(s.park, PW.Ready(x))
    requires s'.place == if x in s.q.waiting then s.place[x := InRunnable] else s.place
    ensures Placed(s') && Coupled(s')
  {
    PW.StepInv(s.park, PW.Ready(x));
    forall t | t in s'.place ensures PlaceOk(s', t) {
      assert PlaceOk(s, t);
    }
    forall i | 0 <= i < |s'.ws| ensures WorkerOk(s', i) {
      assert WorkerOk(s, i);
    }
  }

  /** The current task of `w` registers, and will park next. */
  lemma RegisterTasks(s: State, s': State, w: nat)
    requires Placed(s) && Coupled(s) && Acts(s, w)
    requires s'.q == s.q && s'.ws == s.ws && s'.place == s.place
    requires s'.park == PW.Apply(s.park, PW.Register(Cur(s, w).id))
    ensures Placed(s') && Coupled(s')
  {
    var t := Cur(s, w).id;
    assert WorkerOk(s, w);
    PW.StepInv(s.park, PW.Register(t));
    forall x | x in s'.place ensures PlaceOk(s', x) {
      assert PlaceOk(s, x);
    }
    forall i | 0 <= i < |s'.ws| ensures WorkerOk(s', i) {
      assert WorkerOk(s, i);
    }
  }

  /** The current task of `w` switches to the scheduler, having parked or yielded. */
  lemma SwitchTasks(s: State, s': State, w: nat, state: TaskState)
    requires Placed(s) && Coupled(s) && Executes(s, w)
    requires state == Waiting || state == Running
    requires state == Waiting <==> Cur(s, w).id in s.park.parking
    requires s'.q == s.q && s'.place == s.place && s'.park == s.park
    requires s'.ws == s.ws[w := Worker(Switched, Some(Cur(s, w).(state := state)))]
    ensures Placed(s') && Coupled(s')
  {
    assert WorkerOk(s, w);
    forall x | x in s'.place ensures PlaceOk(s', x) {
      assert PlaceOk(s, x);
    }
    forall i | 0 <= i < |s'.ws| ensures WorkerOk(s', i) {
      assert WorkerOk(s, i);
    }
  }

  lemma FinishTasks(s: State, s': State, w: nat)
    requires Placed(s) && Coupled(s) && Acts(s, w)
    requires s'.q == s.q && s'.place == s.place - {Cur(s, w).id}
    requires s'.park == PW.Apply(s.park, PW.Finish(Cur(s, w).id))
    requires s'.ws == s.ws[w := Worker(Switched, Some(Cur(s, w).(state := Dead)))]
    ensures Placed(s') && Coupled(s')
  {
    assert WorkerOk(s, w);
    PW.StepInv(s.park, PW.Finish(Cur(s, w).id));
    forall x | x in s'.place ensures PlaceOk(s', x) {
      assert PlaceOk(s, x);
    }
    forall i | 0 <= i < |s'.ws| ensures WorkerOk(s', i) {
      assert WorkerOk(s, i);
    }
  }

  ghost predicate Leaves(s: State, s': State, w: nat) {
    && w < |s.ws| && s.ws[w].phase == Switched && s.ws[w].current.Some?
    && s'.ws == s.ws[w := Worker(Top, None)]
  }

  lemma DropTasks(s: State, s': State, w: nat)
    requires Placed(s) && Coupled(s) && Leaves(s, s', w) && Cur(s, w).state == Dead
    requires s'.q == s.q && s'.place == s.place && s'.park == s.park
    ensures Placed(s') && Coupled(s')
  {
    forall x | x in s'.place ensures PlaceOk(s', x) {
      assert PlaceOk(s, x);
    }
    forall i | 0 <= i < |s'.ws| ensures WorkerOk(s', i) {
      assert WorkerOk(s, i);
    }
  }

  lemma YieldTasks(s: State, s': State, w: nat)
    requires Placed(s) && Coupled(s) && Leaves(s, s', w) && Cur(s, w).state == Running
    requires s'.q == PutBack(s.q, Cur(s, w)) && s'.park == s.park
    requires s'.place == s.place[Cur(s, w).id := InRunnable]
    ensures Placed(s') && Coupled(s')
  {
    assert WorkerOk(s, w);
    assert Task(Cur(s, w).id, Runnable) !in s.q.runnable;
    forall x | x in s'.place ensures PlaceOk(s', x) {
      assert PlaceOk(s, x);
    }
    forall i | 0 <= i < |s'.ws| ensures WorkerOk(s', i) {
      assert WorkerOk(s, i);
    }
  }

  /** Filing a parked task never overwrites another entry of the map. */
  lemma CommitTasks(s: State, s': State, w: nat)
    requires Placed(s) && Coupled(s) && Leaves(s, s', w) && Cur(s, w).state == Waiting
    requires s'.q == CommitPark(s.q, Cur(s, w))
    requires s'.park == PW.Apply(s.park, PW.Commit(Cur(s, w).id))
    requires s'.place == s.place[Cur(s, w).id := if Cur(s, w).id in s.q.pending then InRunnable else InWaiting]
    ensures Placed(s') && Coupled(s')
    ensures Cur(s, w).id !in s.q.waiting
  {
    assert WorkerOk(s, w);
    PW.StepInv(s.park, PW.Commit(Cur(s, w).id));
    if Cur(s, w).id in s.q.pending {
      CommitReadied(s, s', w);
    } else {
      CommitFiled(s, s', w);
    }
  }

  lemma CommitReadied(s: State, s': State, w: nat)
    requires Placed(s) && Leaves(s, s', w) && Cur(s, w).state == Waiting && Cur(s, w).id in s.q.pending
    requires s'.q == CommitPark(s.q, Cur(s, w))
    requires s'.park.parking == s.park.parking - {Cur(s, w).id}
    requires s'.place == s.place[Cur(s, w).id := InRunnable]
    ensures Placed(s')
  {
    assert WorkerOk(s, w);
    assert Task(Cur(s, w).id, Runnable) !in s.q.runnable;
    forall x | x in s'.place ensures PlaceOk(s', x) {
      assert PlaceOk(s, x);
    }
    forall i | 0 <= i < |s'.ws| ensures WorkerOk(s', i) {
      assert WorkerOk(s, i);
    }
  }

  lemma CommitFiled(s: State, s': State, w: nat)
    requires Placed(s) && Leaves(s, s', w) && Cur(s, w).state == Waiting && Cur(s, w).id !in s.q.pending
    requires s'.q == CommitPark(s.q, Cur(s, w))
    requires s'.park.parking == s.park.parking - {Cur(s, w).id}
    requires s'.place == s.place[Cur(s, w).id := InWaiting]
    ensures Placed(s')
  {
    assert WorkerOk(s, w);
    forall x | x in s'.place ensures PlaceOk(s', x) {
      assert PlaceOk(s, x);
    }
    forall i | 0 <= i < |s'.ws| ensures WorkerOk(s', i) {
      assert WorkerOk(s, i);
    }
  }

  lemma TasksKept(s: State, a: Action)
    requires Placed(s) && Coupled(s) && TimersOk(s) && Enabled(s, a)
    ensures Placed(Apply(s, a)) && Coupled(Apply(s, a))
  {
    match a {
      case Take(w) => TopTasks(s, w);
      case Wake(w) => WakeTasks(s, w);
      case FireReady(w) => FireReadyTasks(s, w);
      case Settle(w) => SettleTasks(s, w);
      case Park(w) => ParksTasks(s, w);
      case Yield(w) => YieldsTasks(s, w);
      case Finish(w) => FinishesTasks(s, w);
      case _ =>
        if a.Spawn? || a.Rouse? || a.Enlist? || a.Sleep? {
          ActingTasks(s, a);
        } else {
          SidestepKept(s, a);
        }
    }
  }

  /** The current task calls `go`, wakes another or registers. */
  lemma ActingTasks(s: State, a: Action)
    requires Placed(s) && Coupled(s) && Enabled(s, a)
    requires a.Spawn? || a.Rouse? || a.Enlist? || a.Sleep?
    ensures Placed(Apply(s, a)) && Coupled(Apply(s, a))
  {
    var s' := Apply(s, a);
    match a {
      case Spawn(w) => SpawnTasks(s, s');
      case Rouse(w, x) => ReadyTasks(s, s', x);
      case Enlist(w) => RegisterTasks(s, s', w);
      case Sleep(w, _) => RegisterTasks(s, s', w);
    }
  }

  lemma ParksTasks(s: State, w: nat)
    requires Placed(s) && Coupled(s) && Enabled(s, Park(w))
    ensures Placed(Apply(s, Park(w))) && Coupled(Apply(s, Park(w)))
  {
    SwitchTasks(s, Apply(s, Park(w)), w, Waiting);
  }

  lemma FinishesTasks(s: State, w: nat)
    requires Placed(s) && Coupled(s) && Enabled(s, Finish(w))
    ensures Placed(Apply(s, Finish(w))) && Coupled(Apply(s, Finish(w)))
  {
    FinishTasks(s, Apply(s, Finish(w)), w);
  }

  lemma TopTasks(s: State, w: nat)
    requires Placed(s) && Coupled(s) && Enabled(s, Take(w))
    ensures Placed(Apply(s, Take(w))) && Coupled(Apply(s, Take(w)))
  {
    assert WorkerOk(s, w);
    TakeTasks(s, Apply(s, Take(w)), w);
  }

  lemma YieldsTasks(s: State, w: nat)
    requires Placed(s) && Coupled(s) && Enabled(s, Yield(w))
    ensures Placed(Apply(s, Yield(w))) && Coupled(Apply(s, Yield(w)))
  {
    assert WorkerOk(s, w);
    assert Cur(s, w).(state := Running) == Cur(s, w);
    SwitchTasks(s, Apply(s, Yield(w)), w, Running);
  }

  lemma SidestepKept(s: State, a: Action)
    requires Placed(s) && Coupled(s) && Enabled(s, a)
    requires a.Start? || a.Move? || a.Fire? || a.Rest? || a.AddWorker? || a.Tick?
    ensures Placed(Apply(s, a)) && Coupled(Apply(s, a))
  {
    assert !a.Tick? ==> WorkerOk(s, a.w);
    IsSidestep(s, a);
    SidestepTasks(s, Apply(s, a));
  }

  lemma IsSidestep(s: State, a: Action)
    requires Enabled(s, a)
    requires a.Start? || a.Move? || a.Fire? || a.Rest? || a.AddWorker? || a.Tick?
    requires !a.Tick? && !HasTask(s.ws[a.w].phase) ==> s.ws[a.w].current.None?
    ensures Sidestep(s, Apply(s, a))
  {
    assert LabelOf(s, a) == PW.Silent;
    match a
    case Start(w) => SidestepOf(s, Effect(s, a), w);
    case Move(w, to) => SidestepOf(s, Effect(s, a), w);
    case Fire(w, _) => SidestepOf(s, Effect(s, a), w);
    case Rest(w) => SidestepOf(s, Effect(s, a), w);
    case _ =>
  }

  lemma SidestepOf(s: State, s': State, w: nat)
    requires w < |s.ws| && s.ws[w].current.None?
    requires |s'.ws| == |s.ws| && s'.ws == s.ws[w := Worker(s'.ws[w].phase, None)]
    requires !HasTask(s'.ws[w].phase)
    requires s'.q.runnable == s.q.runnable && s'.q.waiting == s.q.waiting && s'.q.pending == s.q.pending
    requires s'.park == s.park && s'.place == s.place
    ensures Sidestep(s, s')
  {
  }

  lemma WakeTasks(s: State, w: nat)
    requires Placed(s) && Coupled(s) && Enabled(s, Wake(w))
    ensures Placed(Apply(s, Wake(w))) && Coupled(Apply(s, Wake(w)))
  {
    assert WorkerOk(s, w);
    if WakeUp(s.q, false, s.heap != multiset{}).1.Runs? {
      TakeTasks(s, Apply(s, Wake(w)), w);
    } else {
      WakeSidesteps(s, w);
      SidestepTasks(s, Apply(s, Wake(w)));
    }
  }

  lemma WakeSidesteps(s: State, w: nat)
    requires Enabled(s, Wake(w)) && s.ws[w].current.None?
    requires !WakeUp(s.q, false, s.heap != multiset{}).1.Runs?
    ensures Sidestep(s, Effect(s, Wake(w)))
  {
  }

  lemma FireReadyTasks(s: State, w: nat)
    requires Placed(s) && Coupled(s) && TimersOk(s) && Enabled(s, FireReady(w))
    ensures Placed(Apply(s, FireReady(w))) && Coupled(Apply(s, FireReady(w)))
  {
    var t := s.ws[w].phase.t;
    assert PollerOk(s, w) && SleepOk(s, t) && WorkerOk(s, w);
    var mid := Readied(s.(park := PW.Apply(s.park, PW.Ready(t))), t);
    ReadyTasks(s, mid, t);
    SidestepTasks(mid, Apply(s, FireReady(w)));
  }

  lemma SettleTasks(s: State, w: nat)
    requires Placed(s) && Coupled(s) && Enabled(s, Settle(w))
    ensures Placed(Apply(s, Settle(w))) && Coupled(Apply(s, Settle(w)))
  {
    var s' := Apply(s, Settle(w));
    assert WorkerOk(s, w);
    match Cur(s, w).state {
      case Dead => DropTasks(s, s', w);
      case Waiting => CommitTasks(s, s', w);
      case _ => YieldTasks(s, s', w);
    }
  }

  // ---- Timers -------------------------------------------------------------------------------

  /** Timers, and the workers handling them, are left alone. */
  ghost predicate SameTimers(s: State, s': State) {
    && s'.heap == s.heap && s'.sleep == s.sleep && s'.wakeAt == s.wakeAt && s.clock <= s'.clock
    && |s.ws| <= |s'.ws|
    && (forall i :: 0 <= i < |s'.ws| && (i >= |s.ws| || s'.ws[i] != s.ws[i]) ==>
          (i < |s.ws| ==> !s.ws[i].phase.Firing?) && PollerOk(s', i))
  }

  lemma TimersApartKept(s: State, s': State)
    requires TimersOk(s) && SameTimers(s, s')
    requires forall t :: t in s.sleep ==> t in s'.park.reg
    ensures TimersOk(s')
  {
    forall t | t in s'.sleep ensures SleepOk(s', t) {
      assert SleepOk(s, t);
    }
    forall w | 0 <= w < |s'.ws| ensures PollerOk(s', w) {
      assert w < |s.ws| ==> PollerOk(s, w);
    }
  }

  lemma FireTimers(s: State, w: nat, e: TimerEntry)
    requires TimersOk(s) && Enabled(s, Fire(w, e))
    ensures TimersOk(Apply(s, Fire(w, e)))
  {
    var s' := Apply(s, Fire(w, e));
    assert SleepOk(s, e.id) && PollerOk(s, w);
    forall t | t in s'.sleep ensures SleepOk(s', t) {
      assert SleepOk(s, t);
    }
    forall i | 0 <= i < |s'.ws| ensures PollerOk(s', i) {
      assert PollerOk(s, i);
    }
  }

  lemma FireReadyTimers(s: State, w: nat)
    requires TimersOk(s) && Enabled(s, FireReady(w))
    ensures TimersOk(Apply(s, FireReady(w)))
  {
    var s' := Apply(s, FireReady(w));
    var t := s.ws[w].phase.t;
    assert PollerOk(s, w) && SleepOk(s, t);
    forall x | x in s'.sleep ensures SleepOk(s', x) {
      assert SleepOk(s, x);
    }
    forall i | 0 <= i < |s'.ws| ensures PollerOk(s', i) {
      assert PollerOk(s, i);
    }
  }

  lemma SleepTimers(s: State, w: nat, wake: int)
    requires TimersOk(s) && Coupled(s) && Placed(s) && Enabled(s, Sleep(w, wake))
    ensures TimersOk(Apply(s, Sleep(w, wake)))
  {
    var s' := Apply(s, Sleep(w, wake));
    var t := Cur(s, w).id;
    assert WorkerOk(s, w);
    CurrentIsActive(s, w);
    assert t !in s.park.reg;
    assert t in s.sleep ==> SleepOk(s, t);
    assert forall e :: e in s.heap ==> e.id != t;
    forall x | x in s'.sleep ensures SleepOk(s', x) {
      assert x in s.sleep ==> SleepOk(s, x);
    }
    forall i | 0 <= i < |s'.ws| ensures PollerOk(s', i) {
      assert PollerOk(s, i);
    }
  }

  /** The task that runs on a worker and has not registered is active in the protocol. */
  lemma CurrentIsActive(s: State, w: nat)
    requires Placed(s) && Coupled(s) && Acts(s, w)
    ensures PW.Active(s.park, Cur(s, w).id)
  {
    assert WorkerOk(s, w);
  }

  lemma TimersKept(s: State, a: Action)
    requires Placed(s) && Coupled(s) && TimersOk(s) && Enabled(s, a)
    ensures TimersOk(Apply(s, a))
  {
    match a {
      case Fire(w, e) => FireTimers(s, w, e);
      case FireReady(w) => FireReadyTimers(s, w);
      case Sleep(w, wake) => SleepTimers(s, w, wake);
      case _ => OthersApart(s, a);
    }
  }

  lemma OthersApart(s: State, a: Action)
    requires TimersOk(s) && Enabled(s, a)
    requires !a.Fire? && !a.FireReady? && !a.Sleep?
    ensures TimersOk(Apply(s, a))
  {
    var s' := Apply(s, a);
    forall t | t in s.sleep ensures t in s'.park.reg {
      assert SleepOk(s, t);
      StillRegistered(s, a, t);
    }
    if a.Move? {
      MoveApart(s, a.w, a.to);
    } else {
      QueueApart(s, a);
    }
    TimersApartKept(s, s');
  }

  lemma StillRegistered(s: State, a: Action, t: TaskId)
    requires Enabled(s, a) && !a.FireReady? && t in s.sleep && t in s.park.reg
    ensures t in Apply(s, a).park.reg
  {
    assert LabelOf(s, a) != PW.Ready(t);
    OnlyReadyRemoves(s.park, LabelOf(s, a), t);
  }

  lemma OnlyReadyRemoves(p: PW.State, l: PW.Label, t: TaskId)
    requires t in p.reg && l != PW.Ready(t)
    ensures t in PW.Apply(p, l).reg
  {
  }

  lemma MoveApart(s: State, w: nat, to: Phase)
    requires TimersOk(s) && Enabled(s, Move(w, to))
    ensures SameTimers(s, Apply(s, Move(w, to)))
  {
    assert PollerOk(s, w);
  }

  lemma QueueApart(s: State, a: Action)
    requires Enabled(s, a) && !a.Fire? && !a.FireReady? && !a.Sleep? && !a.Move?
    ensures SameTimers(s, Apply(s, a))
  {
    NoTimerTouched(s, a);
    if !a.AddWorker? && !a.Tick? {
      OneWorkerMoves(s, a);
      NotFiring(s, a);
    }
  }

  lemma NoTimerTouched(s: State, a: Action)
    requires Enabled(s, a) && !a.Fire? && !a.FireReady? && !a.Sleep?
    ensures var s' := Effect(s, a);
      s'.heap == s.heap && s'.sleep == s.sleep && s'.wakeAt == s.wakeAt && s'.clock >= s.clock
  {
    assert a.Wake? ==> Effect(s, a).heap == s.heap;
  }

  lemma NotFiring(s: State, a: Action)
    requires Enabled(s, a) && !a.Fire? && !a.FireReady? && !a.Move? && !a.Tick? && !a.AddWorker?
    ensures a.w < |s.ws| && !s.ws[a.w].phase.Firing?
    ensures !PhaseAfter(s, a).Firing? && !PhaseAfter(s, a).Checking?
  {
  }

  // ---- Counters -------------------------------------------------------------------------------

  lemma CountersMove(s: State, s': State, w: nat)
    requires w < |s.ws| == |s'.ws| && s'.ws == s.ws[w := s'.ws[w]]
    ensures NumIdle(s') == NumIdle(s) - Bit(IsIdle(s.ws[w])) + Bit(IsIdle(s'.ws[w]))
    ensures NumLeftIdle(s') == NumLeftIdle(s) - Bit(LeftGoingIdle(s.ws[w])) + Bit(LeftGoingIdle(s'.ws[w]))
    ensures NumExited(s') == NumExited(s) - Bit(HasExited(s.ws[w])) + Bit(HasExited(s'.ws[w]))
    ensures NumRegistered(s') == NumRegistered(s) - Bit(Registered(s.ws[w])) + Bit(Registered(s'.ws[w]))
    ensures NumPollers(s') == NumPollers(s) - Bit(Polls(s.ws[w])) + Bit(Polls(s'.ws[w]))
  {
    CountUpdate(s.ws, IsIdle, w, s'.ws[w]);
    CountUpdate(s.ws, LeftGoingIdle, w, s'.ws[w]);
    CountUpdate(s.ws, HasExited, w, s'.ws[w]);
    CountUpdate(s.ws, Registered, w, s'.ws[w]);
    CountUpdate(s.ws, Polls, w, s'.ws[w]);
  }

  lemma CountersAppend(s: State, s': State)
    requires s'.ws == s.ws + [Worker(Unstarted, None)]
    ensures NumIdle(s') == NumIdle(s) && NumLeftIdle(s') == NumLeftIdle(s) && NumExited(s') == NumExited(s)
    ensures NumRegistered(s') == NumRegistered(s) && NumPollers(s') == NumPollers(s)
  {
    CountAppend(s.ws, IsIdle, Worker(Unstarted, None));
    CountAppend(s.ws, LeftGoingIdle, Worker(Unstarted, None));
    CountAppend(s.ws, HasExited, Worker(Unstarted, None));
    CountAppend(s.ws, Registered, Worker(Unstarted, None));
    CountAppend(s.ws, Polls, Worker(Unstarted, None));
  }

  /** A worker of a kind makes the count of that kind positive. */
  lemma Witnessed(s: State, p: Worker -> bool, w: nat)
    requires w < |s.ws| && p(s.ws[w])
    ensures Count(s.ws, p) >= 1
  {
    CountNone(s.ws, p);
  }

  /** The phase the acting worker goes to. */
  ghost function PhaseAfter(s: State, a: Action): Phase
    requires Enabled(s, a) && !a.Tick? && !a.AddWorker?
  {
    match a
    case Start(_) => Top
    case Take(_) => Active
    case Move(_, to) => to
    case Fire(w, e) => Firing(s.ws[w].phase.first, s.ws[w].phase.now, e.id)
    case FireReady(w) => Checking(s.ws[w].phase.first, s.ws[w].phase.now)
    case Rest(w) => if GoIdle(s.q, false, s.ws[w].phase.sawTimers).1 then Exited(true) else Idle
    case Wake(w) => PhaseAwake(WakeUp(s.q, false, s.heap != multiset{}).1)
    case Park(_) => Switched
    case Yield(_) => Switched
    case Finish(_) => Switched
    case Settle(_) => Top
    case _ => Active
  }

  function PhaseAwake(r: WakeResult): Phase {
    match r
    case Leaves => Exited(false)
    case Runs(_) => Active
    case Loops => Top
  }

  lemma OneWorkerMoves(s: State, a: Action)
    requires Enabled(s, a) && !a.Tick? && !a.AddWorker?
    ensures a.w < |s.ws| == |Effect(s, a).ws|
    ensures Effect(s, a).ws == s.ws[a.w := Effect(s, a).ws[a.w]]
    ensures Effect(s, a).ws[a.w].phase == PhaseAfter(s, a)
  {
    if a.Wake? {
      WakeMoves(s, a.w);
    } else if a.Settle? {
      SettleMoves(s, a.w);
    } else {
      assert s.ws == s.ws[a.w := s.ws[a.w]];
    }
  }

  lemma WakeMoves(s: State, w: nat)
    requires w < |s.ws|
    ensures var ws := ApplyWake(s, w).ws;
      && |ws| == |s.ws| && ws == s.ws[w := ws[w]]
      && ws[w].phase == PhaseAwake(WakeUp(s.q, false, s.heap != multiset{}).1)
  {
    match WakeUp(s.q, false, s.heap != multiset{}).1
    case Leaves => assert ApplyWake(s, w).ws == s.ws[w := Worker(Exited(false), None)];
    case Runs(task) => assert ApplyWake(s, w).ws == s.ws[w := Worker(Active, Some(task))];
    case Loops => assert ApplyWake(s, w).ws == s.ws[w := Worker(Top, None)];
  }

  lemma SettleMoves(s: State, w: nat)
    requires w < |s.ws| && s.ws[w].current.Some?
    ensures ApplySettle(s, w).ws == s.ws[w := Worker(Top, None)]
  {
  }

  lemma CountersKept(s: State, a: Action)
    requires Counted(s) && Enabled(s, a)
    ensures Counted(Apply(s, a))
  {
    var s' := Apply(s, a);
    if a.AddWorker? {
      CountersAppend(s, s');
    } else if !a.Tick? {
      OneWorkerMoves(s, a);
      CountersMove(s, s', a.w);
      if a.Move? {
        MoveCounts(s, a.w, a.to);
      } else {
        KindsChange(s, a);
      }
    }
  }

  lemma MoveCounts(s: State, w: nat, to: Phase)
    requires Counted(s) && Enabled(s, Move(w, to))
    ensures Counted(Apply(s, Move(w, to)))
  {
    var from := s.ws[w];
    CountersMove(s, Apply(s, Move(w, to)), w);
    if Polls(from) {
      Witnessed(s, Polls, w);
    }
  }

  /** How the counters of the queue follow the kind of the acting worker. */
  ghost predicate KindsFollow(s: State, s': State, w: nat)
    requires w < |s.ws| == |s'.ws|
  {
    var x, x' := s.ws[w], s'.ws[w];
    && s'.q.idle - s.q.idle == Bit(IsIdle(x')) + Bit(LeftGoingIdle(x')) - Bit(IsIdle(x)) - Bit(LeftGoingIdle(x))
    && s'.q.all - s.q.all == Bit(Registered(x')) - Bit(Registered(x))
    && Polls(x') == Polls(x) && s'.polling == s.polling
  }

  lemma KindsChange(s: State, a: Action)
    requires Enabled(s, a) && !a.Tick? && !a.AddWorker? && !a.Move?
    requires a.w < |s.ws| == |Effect(s, a).ws|
    ensures KindsFollow(s, Effect(s, a), a.w)
  {
    match a {
      case Rest(w) => RestKinds(s, w);
      case Wake(w) => WakeKinds(s, w);
      case Settle(w) => SettleKinds(s, w);
      case _ => PlainKinds(s, a);
    }
  }

  lemma RestKinds(s: State, w: nat)
    requires Enabled(s, Rest(w)) && |Effect(s, Rest(w)).ws| == |s.ws|
    ensures KindsFollow(s, Effect(s, Rest(w)), w)
  {
  }

  lemma WakeKinds(s: State, w: nat)
    requires Enabled(s, Wake(w)) && |Effect(s, Wake(w)).ws| == |s.ws|
    ensures KindsFollow(s, Effect(s, Wake(w)), w)
  {
    OneWorkerMoves(s, Wake(w));
    WakeQueue(s, w);
  }

  lemma WakeQueue(s: State, w: nat)
    requires w < |s.ws|
    ensures var (s', r) := (ApplyWake(s, w), WakeUp(s.q, false, s.heap != multiset{}).1);
      s'.q.idle == s.q.idle - 1 && s'.q.all == s.q.all - Bit(r.Leaves?) && s'.polling == s.polling
  {
    WakeUpCounts(s.q, s.heap != multiset{});
    assert ApplyWake(s, w).q == WakeUp(s.q, false, s.heap != multiset{}).0;
  }

  lemma WakeUpCounts(q: Queue, timers: bool)
    ensures var (q', r) := WakeUp(q, false, timers);
      q'.idle == q.idle - 1 && q'.all == q.all - Bit(r.Leaves?)
  {
  }

  lemma SettleKinds(s: State, w: nat)
    requires Enabled(s, Settle(w)) && |Effect(s, Settle(w)).ws| == |s.ws|
    ensures KindsFollow(s, Effect(s, Settle(w)), w)
  {
    SettleMoves(s, w);
    SettleQueue(s, w);
  }

  lemma SettleQueue(s: State, w: nat)
    requires w < |s.ws| && s.ws[w].current.Some?
    ensures var s' := ApplySettle(s, w);
      s'.q.idle == s.q.idle && s'.q.all == s.q.all && s'.polling == s.polling
  {
  }

  lemma PlainKinds(s: State, a: Action)
    requires Enabled(s, a) && !a.Tick? && !a.AddWorker? && !a.Move?
    requires !a.Rest? && !a.Wake? && !a.Settle?
    requires a.w < |s.ws| == |Effect(s, a).ws|
    ensures KindsFollow(s, Effect(s, a), a.w)
  {
    OneWorkerMoves(s, a);
    PlainPhases(s, a);
    PlainQueue(s, a);
  }

  lemma PlainPhases(s: State, a: Action)
    requires Enabled(s, a) && !a.Tick? && !a.AddWorker? && !a.Move?
    requires !a.Rest? && !a.Wake? && !a.Settle?
    ensures var (p, p') := (s.ws[a.w].phase, PhaseAfter(s, a));
      && IsPoller(p') == IsPoller(p) && IsRegistered(p') && (IsRegistered(p) <==> !a.Start?)
      && !p.Idle? && !p.Exited? && !p'.Idle? && !p'.Exited?
  {
  }

  lemma PlainQueue(s: State, a: Action)
    requires Enabled(s, a) && !a.Tick? && !a.AddWorker? && !a.Move?
    requires !a.Rest? && !a.Wake? && !a.Settle?
    ensures var s' := Effect(s, a);
      s'.q.idle == s.q.idle && s'.q.all == s.q.all + Bit(a.Start?) && s'.polling == s.polling
  {
  }

  // ---- Attention and exits -----------------------------------------------------------------

  lemma AttentionKept(s: State, a: Action)
    requires Attended(s) && Enabled(s, a)
    ensures Attended(Apply(s, a))
  {
    var s' := Apply(s, a);
    if s'.q.runnable != [] && !a.Tick? && !a.AddWorker? {
      OneWorkerMoves(s, a);
      if !WillLook(PhaseAfter(s, a)) {
        AttentionElsewhere(s, a);
      }
    } else if a.AddWorker? {
      assert s'.ws[a.w] == s.ws[a.w];
    }
  }

  /** A worker that turns away does so with the queue empty, or was not looking. */
  lemma AttentionElsewhere(s: State, a: Action)
    requires Attended(s) && Enabled(s, a) && !a.Tick? && !a.AddWorker?
    requires Effect(s, a).q.runnable != [] && !WillLook(PhaseAfter(s, a))
    ensures exists i :: 0 <= i < |Effect(s, a).ws| && WillLook(Effect(s, a).ws[i].phase)
  {
    TurnsAway(s, a);
    OneWorkerMoves(s, a);
    var i :| 0 <= i < |s.ws| && WillLook(s.ws[i].phase);
    assert Effect(s, a).ws[i] == s.ws[i];
  }

  lemma TurnsAway(s: State, a: Action)
    requires Enabled(s, a) && !a.Tick? && !a.AddWorker?
    requires Effect(s, a).q.runnable != [] && !WillLook(PhaseAfter(s, a))
    ensures s.q.runnable != [] && !WillLook(s.ws[a.w].phase)
  {
    if a.Move? {
      assert Effect(s, a).q == s.q;
    } else {
      assert a.Rest? || a.Wake?;
    }
  }

  /** Nothing is queued, filed or running: then nothing is alive. */
  lemma NothingAlive(s: State)
    requires Placed(s) && Coupled(s)
    requires s.q.runnable == [] && s.q.waiting == map[]
    requires forall w :: 0 <= w < |s.ws| ==> !HasTask(s.ws[w].phase)
    ensures s.park.live == {}
  {
    forall t ensures t !in s.place {
      if t in s.place {
        LiveIsSomewhere(s, t);
      }
    }
  }

  lemma LiveIsSomewhere(s: State, t: TaskId)
    requires Placed(s) && t in s.place
    ensures s.q.runnable != [] || t in s.q.waiting
         || exists w :: 0 <= w < |s.ws| && HasTask(s.ws[w].phase)
  {
    assert PlaceOk(s, t);
    if s.place[t].OnWorker? {
      assert WorkerOk(s, s.place[t].w);
    }
  }

  /** The first worker to leave does so while going idle, and then all registered
      workers are idle. */
  lemma FirstExit(s: State, a: Action)
    requires Placed(s) && Coupled(s) && Counted(s) && NumExited(s) == 0 && Enabled(s, a)
    requires NumExited(Apply(s, a)) > 0
    ensures a.Rest? && s.park.live == {}
    ensures forall i :: 0 <= i < |s.ws| && i != a.w && IsRegistered(s.ws[i].phase) ==> s.ws[i].phase.Idle?
  {
    ExitsWhere(s, a);
    CountNone(s.ws, LeftGoingIdle);
    CountNone(s.ws, HasExited);
    if a.Wake? {
      CountSubset(s.ws, IsIdle, Registered);
      assert false;
    } else {
      AllIdleBut(s, a.w);
      NothingAlive(s);
    }
  }

  /** With the worker that is going idle, all registered workers are idle. */
  lemma AllIdleBut(s: State, w: nat)
    requires Counted(s) && NumLeftIdle(s) == 0 && NumExited(s) == 0
    requires w < |s.ws| && s.ws[w].phase.GoingIdle? && s.q.idle + 1 == s.q.all
    ensures forall i :: 0 <= i < |s.ws| && i != w && IsRegistered(s.ws[i].phase) ==> s.ws[i].phase.Idle?
    ensures forall i :: 0 <= i < |s.ws| ==> !HasTask(s.ws[i].phase)
  {
    var mid := s.(ws := s.ws[w := Worker(Idle, None)]);
    CountersMove(s, mid, w);
    CountSubset(mid.ws, IsIdle, Registered);
    assert forall i :: 0 <= i < |s.ws| && i != w ==> mid.ws[i] == s.ws[i];
  }

  /** Workers leave only in `Rest` and `Wake`, and only when the queue is quiescent. */
  lemma ExitsWhere(s: State, a: Action)
    requires Enabled(s, a) && NumExited(Apply(s, a)) > NumExited(s)
    ensures a.Rest? || a.Wake?
    ensures a.Rest? ==> Quiescent(s.q.(idle := s.q.idle + 1), false, s.ws[a.w].phase.sawTimers)
    ensures a.Wake? ==> Quiescent(s.q.(idle := s.q.idle - 1), false, s.heap != multiset{})
  {
    if a.AddWorker? {
      CountersAppend(s, Apply(s, a));
    } else if !a.Tick? {
      OneWorkerMoves(s, a);
      CountersMove(s, Apply(s, a), a.w);
      OnlyTheseExit(s, a);
    }
  }

  lemma OnlyTheseExit(s: State, a: Action)
    requires Enabled(s, a) && !a.Tick? && !a.AddWorker? && PhaseAfter(s, a).Exited?
    ensures a.Rest? || a.Wake?
    ensures a.Rest? ==> Quiescent(s.q.(idle := s.q.idle + 1), false, s.ws[a.w].phase.sawTimers)
    ensures a.Wake? ==> Quiescent(s.q.(idle := s.q.idle - 1), false, s.heap != multiset{})
  {
  }

  lemma ExitsKept(s: State, a: Action)
    requires Placed(s) && Coupled(s) && Counted(s) && ExitsLate(s) && Enabled(s, a)
    ensures ExitsLate(Apply(s, a))
  {
    var s' := Apply(s, a);
    if NumExited(s') > 0 {
      if NumExited(s) == 0 {
        FirstExit(s, a);
      } else if a.Spawn? {
        CurrentIsActive(s, a.w);
      }
      LiveShrinks(s, a);
    }
  }

  lemma LiveShrinks(s: State, a: Action)
    requires Enabled(s, a) && !a.Spawn?
    ensures Apply(s, a).park.live <= s.park.live
  {
    OnlySpawnAdds(s.park, LabelOf(s, a));
  }

  lemma OnlySpawnAdds(p: PW.State, l: PW.Label)
    requires !l.Spawn?
    ensures PW.Apply(p, l).live <= p.live
  {
  }

  // ---- All together -------------------------------------------------------------------------

  lemma StepKeepsInv(s: State, a: Action)
    requires Inv(s) && Enabled(s, a)
    ensures Inv(Apply(s, a))
  {
    TasksKept(s, a);
    TimersKept(s, a);
    CountersKept(s, a);
    AttentionKept(s, a);
    ExitsKept(s, a);
  }

  lemma InitInv(n: nat, m: nat)
    requires m >= 1
    ensures Inv(Init(n, m))
  {
    var s := Init(n, m);
    PW.InitInv(n);
    CountNone(s.ws, IsIdle);
    CountNone(s.ws, LeftGoingIdle);
    CountNone(s.ws, HasExited);
    CountNone(s.ws, Registered);
    CountNone(s.ws, Polls);
    forall t | t in s.place ensures PlaceOk(s, t) {
      assert s.q.runnable[t] == Task(t, Runnable);
    }
    assert WillLook(s.ws[0].phase);
  }

  lemma {:induction false} RunKeepsInv(s: State, acts: seq<Action>)
    requires Inv(s) && Run(s, acts)
    ensures Inv(Exec(s, acts))
  {
    if acts != [] {
      var k := |acts| - 1;
      RunKeepsInv(s, acts[..k]);
      StepKeepsInv(Exec(s, acts[..k]), acts[k]);
    }
  }

  lemma ReachableInv(s: State)
    requires Reachable(s)
    ensures Inv(s)
  {
    var n, m, acts :| m >= 1 && Reaches(s, n, m, acts);
    InitInv(n, m);
    RunKeepsInv(Init(n, m), acts);
  }
}
