/** What a run of Workers says about its sleeps and timers, in terms of the wake times that
    tasks asked for. */
module WorkersHistory {
  import opened Common
  import PW = ParkWake
  import opened GlobalQueues
  import opened Workers
  import opened WorkersInvariant

  // ---- Sleep is never early ---------------------------------------------------------------------

  /** Task `t` asks, in this action, to sleep until `wake`. */
  predicate AsksFor(s: State, a: Action, t: TaskId, wake: int) {
    a.Sleep? && a.wake == wake && Executes(s, a.w) && Cur(s, a.w).id == t
  }

  /** The wake time has come, or `t` still sleeps until then. */
  ghost predicate NotBefore(s: State, t: TaskId, wake: int) {
    wake <= s.clock || (t in s.sleep && t in s.wakeAt && s.wakeAt[t] == wake)
  }

  lemma AskedNow(s: State, a: Action, t: TaskId, wake: int)
    requires Enabled(s, a) && AsksFor(s, a, t, wake)
    ensures NotBefore(Apply(s, a), t, wake)
  {
  }

  lemma NotBeforeKept(s: State, a: Action, t: TaskId, wake: int)
    requires Inv(s) && Enabled(s, a) && NotBefore(s, t, wake)
    ensures NotBefore(Apply(s, a), t, wake)
  {
    ClockGoesOn(s, a);
    if wake > s.clock {
      assert SleepOk(s, t);
      if a.FireReady? && s.ws[a.w].phase.t == t {
        FiresInTime(s, a.w);
      } else {
        if a.Sleep? {
          CurrentIsActive(s, a.w);
        }
        StillSleeps(s, a, t);
      }
    }
  }

  lemma ClockGoesOn(s: State, a: Action)
    requires Enabled(s, a)
    ensures Apply(s, a).clock >= s.clock
  {
    if !a.Fire? && !a.FireReady? && !a.Sleep? {
      NoTimerTouched(s, a);
    }
  }

  lemma FiresInTime(s: State, w: nat)
    requires TimersOk(s) && w < |s.ws| && s.ws[w].phase.Firing?
    ensures var t := s.ws[w].phase.t; t in s.wakeAt && s.wakeAt[t] <= s.clock
  {
    assert PollerOk(s, w) && SleepOk(s, s.ws[w].phase.t);
  }

  /** Only a timer that fires ends a sleep. */
  lemma StillSleeps(s: State, a: Action, t: TaskId)
    requires Enabled(s, a) && t in s.sleep && t in s.wakeAt
    requires a.Sleep? ==> Cur(s, a.w).id != t
    requires a.FireReady? ==> s.ws[a.w].phase.t != t
    ensures t in Apply(s, a).sleep && t in Apply(s, a).wakeAt && Apply(s, a).wakeAt[t] == s.wakeAt[t]
  {
    if !a.Fire? && !a.FireReady? && !a.Sleep? {
      NoTimerTouched(s, a);
    }
  }

  /** The k-th action of the run is such a `sleep`. */
  ghost predicate AsksAt(s: State, acts: seq<Action>, k: nat, t: TaskId, wake: int) {
    k < |acts| && Run(s, acts[..k]) && AsksFor(Exec(s, acts[..k]), acts[k], t, wake)
  }

  lemma AskedBefore(s: State, acts: seq<Action>, k: nat, m: nat, t: TaskId, wake: int)
    requires AsksAt(s, acts, k, t, wake) && k < m <= |acts|
    ensures AsksAt(s, acts[..m], k, t, wake)
  {
    assert acts[..m][..k] == acts[..k] && acts[..m][k] == acts[k];
  }

  lemma {:induction false} NotBeforeSince(s: State, acts: seq<Action>, k: nat, t: TaskId, wake: int)
    requires Inv(s) && Run(s, acts) && AsksAt(s, acts, k, t, wake)
    ensures NotBefore(Exec(s, acts), t, wake)
  {
    var i := |acts| - 1;
    if k == i {
      AskedNow(Exec(s, acts[..i]), acts[i], t, wake);
    } else {
      AskedBefore(s, acts, k, i, t, wake);
      NotBeforeSince(s, acts[..i], k, t, wake);
      RunKeepsInv(s, acts[..i]);
      NotBeforeKept(Exec(s, acts[..i]), acts[i], t, wake);
    }
  }

  /** Sleep is never early: whenever a task asked, at whatever step of the run, to sleep
      until `wake`, it acts again only when the clock has reached that time. */
  lemma NeverEarly(n: nat, m: nat, acts: seq<Action>, k: nat, t: TaskId, wake: int, w: nat)
    requires m >= 1 && Run(Init(n, m), acts) && AsksAt(Init(n, m), acts, k, t, wake)
    requires Acts(Exec(Init(n, m), acts), w) && Cur(Exec(Init(n, m), acts), w).id == t
    ensures wake <= Exec(Init(n, m), acts).clock
  {
    InitInv(n, m);
    RunKeepsInv(Init(n, m), acts);
    NotBeforeSince(Init(n, m), acts, k, t, wake);
    AwakeIsDue(Exec(Init(n, m), acts), w, wake);
  }

  lemma AwakeIsDue(s: State, w: nat, wake: int)
    requires Inv(s) && Acts(s, w) && NotBefore(s, Cur(s, w).id, wake)
    ensures wake <= s.clock
  {
    CurrentIsActive(s, w);
    assert Cur(s, w).id in s.sleep ==> SleepOk(s, Cur(s, w).id);
  }

  // ---- The heap holds what was asked for ---------------------------------------------------------

  /** The wake time of the last `sleep` of task `t`. */
  ghost function LastSleep(s: State, acts: seq<Action>, t: TaskId): Option<int>
    requires Run(s, acts)
  {
    if acts == [] then None
    else
      var (k, r) := (|acts| - 1, Exec(s, acts[..|acts| - 1]));
      if acts[k].Sleep? && AsksFor(r, acts[k], t, acts[k].wake) then Some(acts[k].wake)
      else LastSleep(s, acts[..k], t)
  }

  lemma EntryStep(s: State, a: Action, e: TimerEntry)
    requires Inv(s) && Enabled(s, a) && e in Apply(s, a).heap
    ensures e in s.heap || AsksFor(s, a, e.id, e.wake)
    ensures e in s.heap ==> !a.Sleep? || Cur(s, a.w).id != e.id
  {
    if a.Sleep? {
      CurrentIsActive(s, a.w);
      assert e in s.heap ==> SleepOk(s, e.id);
    } else if !a.Fire? && !a.FireReady? {
      NoTimerTouched(s, a);
    }
  }

  /** No timer is early, late or anybody else's: an entry of the heap has just the wake time
      that its task asked for when it last called `sleep`. */
  lemma {:induction false} EntryIsAsAsked(n: nat, m: nat, acts: seq<Action>, e: TimerEntry)
    requires m >= 1 && Run(Init(n, m), acts) && e in Exec(Init(n, m), acts).heap
    ensures LastSleep(Init(n, m), acts, e.id) == Some(e.wake)
  {
    if acts != [] {
      var k := |acts| - 1;
      InitInv(n, m);
      RunKeepsInv(Init(n, m), acts[..k]);
      EntryStep(Exec(Init(n, m), acts[..k]), acts[k], e);
      if e in Exec(Init(n, m), acts[..k]).heap {
        EntryIsAsAsked(n, m, acts[..k], e);
      }
    }
  }

  // ---- A check fires all that is due -------------------------------------------------------------

  predicate ChecksWith(p: Phase, now: int) {
    (p.Checking? || p.Firing?) && p.now == now
  }

  lemma CheckGoesOn(s: State, a: Action, w: nat, now: int)
    requires Enabled(s, a) && w < |s.ws| && ChecksWith(s.ws[w].phase, now)
    requires !(a.Move? && a.w == w)
    ensures w < |Apply(s, a).ws| && ChecksWith(Apply(s, a).ws[w].phase, now)
  {
    if !a.Tick? && !a.AddWorker? {
      OneWorkerMoves(s, a);
    }
  }

  lemma {:induction false} StillChecks(s: State, acts: seq<Action>, w: nat, now: int)
    requires Run(s, acts) && w < |s.ws| && ChecksWith(s.ws[w].phase, now)
    requires forall i :: 0 <= i < |acts| ==> !(acts[i].Move? && acts[i].w == w)
    ensures w < |Exec(s, acts).ws| && ChecksWith(Exec(s, acts).ws[w].phase, now)
  {
    if acts != [] {
      var k := |acts| - 1;
      StillChecks(s, acts[..k], w, now);
      CheckGoesOn(Exec(s, acts[..k]), acts[k], w, now);
    }
  }

  /** `check_timers` from its start to its end, with anything happening in between: every
      timer left in the heap is due later than the time at which the check began. */
  lemma CheckIsThorough(s: State, w: nat, begin: Phase, acts: seq<Action>, end: Phase)
    requires w < |s.ws| && s.ws[w].phase.CheckStart? && Enabled(s, Move(w, begin))
    requires Run(Apply(s, Move(w, begin)), acts)
    requires forall i :: 0 <= i < |acts| ==> !(acts[i].Move? && acts[i].w == w)
    requires Enabled(Exec(Apply(s, Move(w, begin)), acts), Move(w, end))
    ensures forall e :: e in Apply(Exec(Apply(s, Move(w, begin)), acts), Move(w, end)).heap ==> e.wake > s.clock
  {
    CheckBegins(s, w, begin);
    StillChecks(Apply(s, Move(w, begin)), acts, w, s.clock);
    CheckEnds(Exec(Apply(s, Move(w, begin)), acts), w, end, s.clock);
  }

  lemma CheckBegins(s: State, w: nat, begin: Phase)
    requires w < |s.ws| && s.ws[w].phase.CheckStart? && Enabled(s, Move(w, begin))
    ensures var s' := Apply(s, Move(w, begin)); w < |s'.ws| && ChecksWith(s'.ws[w].phase, s.clock)
  {
  }

  lemma CheckEnds(s: State, w: nat, end: Phase, now: int)
    requires Enabled(s, Move(w, end)) && ChecksWith(s.ws[w].phase, now)
    ensures forall e :: e in Apply(s, Move(w, end)).heap ==> e.wake > now
  {
  }
}
