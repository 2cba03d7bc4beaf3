/** The park/wake token protocol shared by channel.rs and timer.rs.

    A task first registers itself with some waker (a wait queue, the timer heap, a
    WaitGroup), releases that lock, and only then parks.  The scheduler files it in
    `waiting` later still, so a `goready` may arrive in between; `pending` (the source's
    `pending_ready` / `pre_ready`) bridges that gap.  Clients of the protocol appear
    here only through labels; `reg` is an auxiliary variable recording which
    registrations have not been answered yet. */
module ParkWake {
  import opened Common

  datatype State = State(
    next: TaskId,            // NEXT_TASK_ID
    live: set<TaskId>,       // created and not finished
    waiting: set<TaskId>,    // filed in the waiting map
    pending: set<TaskId>,    // wake tokens that overtook the park
    parking: set<TaskId>,    // registered, not yet settled by the scheduler
    reg: set<TaskId>         // auxiliary: registered and not yet readied
  )

  datatype Label =
    | Spawn
    | Register(t: TaskId)
    | Commit(t: TaskId)
    | Ready(t: TaskId)
    | Finish(t: TaskId)
    | Silent

  function Init(n: nat): State {
    State(n, FirstIds(n), {}, {}, {}, {})
  }

  /** The task can execute code: it is neither parked nor on its way to be. */
  predicate Active(s: State, t: TaskId) {
    t in s.live && t !in s.waiting && t !in s.parking
  }

  predicate Enabled(s: State, l: Label) {
    match l
    case Register(t) => Active(s, t)
    case Commit(t) => t in s.parking
    case Finish(t) => Active(s, t)
    case _ => true
  }

  /** What a label does.  `Commit` and `Ready` are the two halves of the bridge: each
      looks for what the other left behind. */
  function Apply(s: State, l: Label): State {
    match l
    case Spawn => s.(next := s.next + 1, live := s.live + {s.next})
    case Register(t) => s.(parking := s.parking + {t}, reg := s.reg + {t})
    case Commit(t) =>
      if t in s.pending
      then s.(pending := s.pending - {t}, parking := s.parking - {t})
      else s.(waiting := s.waiting + {t}, parking := s.parking - {t})
    case Ready(t) =>
      if t in s.waiting
      then s.(waiting := s.waiting - {t}, reg := s.reg - {t})
      else s.(pending := s.pending + {t}, reg := s.reg - {t})
    case Finish(t) => s.(live := s.live - {t})
    case Silent => s
  }

  /** What a waker owes: it readies only a task whose registration is outstanding. */
  predicate Disciplined(s: State, l: Label) {
    l.Ready? ==> l.t in s.reg
  }

  /** A token exists exactly for a task that was readied before it was filed; a task
      is owed a wakeup exactly when it is filed, or still parking without a token. */
  ghost predicate Inv(s: State) {
    && (forall t :: t in s.live ==> t < s.next)
    && s.waiting <= s.live
    && s.parking <= s.live
    && s.waiting !! s.parking
    && s.pending <= s.parking
    && s.reg == s.waiting + (s.parking - s.pending)
  }

  lemma InitInv(n: nat)
    ensures Inv(Init(n))
  {
  }

  lemma StepInv(s: State, l: Label)
    requires Inv(s) && Enabled(s, l) && Disciplined(s, l)
    ensures Inv(Apply(s, l))
  {
    var s' := Apply(s, l);
    assert forall x :: x in s'.reg <==> x in s'.waiting + (s'.parking - s'.pending);
  }

  /** Which wakeups are harmless.  A `goready` keeps the protocol sound exactly when its
      target is parked or parking: for a parked task it is the wakeup, for a parking
      one it leaves (or finds) the token.  Anything else leaves a stale token behind,
      which would make some later park return spuriously. */
  lemma ReadyHarmlessIff(s: State, t: TaskId)
    requires Inv(s)
    ensures Inv(Apply(s, Ready(t))) <==> t in s.waiting || t in s.parking
    ensures Active(s, t) ==> t in Apply(s, Ready(t)).pending
  {
    var s' := Apply(s, Ready(t));
    if t in s.waiting || t in s.parking {
      assert s'.reg == s'.waiting + (s'.parking - s'.pending);
    } else {
      assert t in s'.pending && t !in s'.parking;
    }
  }

  // ---- Whole runs -----------------------------------------------------------------

  ghost predicate Run(s: State, ls: seq<Label>) {
    ls == [] ||
    (var k := |ls| - 1;
     Run(s, ls[..k]) && Enabled(Exec(s, ls[..k]), ls[k]) && Disciplined(Exec(s, ls[..k]), ls[k]))
  }

  ghost function Exec(s: State, ls: seq<Label>): State {
    if ls == [] then s else Apply(Exec(s, ls[..|ls| - 1]), ls[|ls| - 1])
  }

  lemma ExtendRun(p: State, ls: seq<Label>, l: Label)
    requires Run(p, ls) && Enabled(Exec(p, ls), l) && Disciplined(Exec(p, ls), l)
    ensures Run(p, ls + [l]) && Exec(p, ls + [l]) == Apply(Exec(p, ls), l)
  {
    assert (ls + [l])[..|ls|] == ls;
  }

  ghost function Occurs(ls: seq<Label>, l: Label): nat {
    Count(ls, x => x == l)
  }

  /** Tokens are conserved: over every run, the registrations of a task are its
      wakeups plus one if it is still owed a wakeup, and its settled parks plus one if
      it is still parking.  So nothing is lost, doubled or spurious. */
  lemma {:induction false} TokensConserved(n: nat, ls: seq<Label>, t: TaskId)
    requires Run(Init(n), ls)
    ensures Inv(Exec(Init(n), ls))
    ensures var s := Exec(Init(n), ls);
      && Occurs(ls, Register(t)) == Occurs(ls, Ready(t)) + (if t in s.reg then 1 else 0)
      && Occurs(ls, Register(t)) == Occurs(ls, Commit(t)) + (if t in s.parking then 1 else 0)
  {
    if ls != [] {
      var k := |ls| - 1;
      var before := Exec(Init(n), ls[..k]);
      TokensConserved(n, ls[..k], t);
      StepInv(before, ls[k]);
      assert ls == ls[..k] + [ls[k]];
    }
  }

  /** Once a task executes again, every one of its registrations has been answered by
      exactly one wakeup and one park, and no token is left for it. */
  lemma ActiveIsSettled(n: nat, ls: seq<Label>, t: TaskId)
    requires Run(Init(n), ls) && Active(Exec(Init(n), ls), t)
    ensures Occurs(ls, Register(t)) == Occurs(ls, Ready(t)) == Occurs(ls, Commit(t))
    ensures t !in Exec(Init(n), ls).pending
  {
    TokensConserved(n, ls, t);
  }
}
