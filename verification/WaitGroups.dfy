/** WaitGroup (sync.rs) over the runtime of timer.rs: any number of tasks and WaitGroups. */
module WaitGroups {
  import opened Common
  import PW = ParkWake

  type GroupId = nat

  const I32_MIN := -0x8000_0000
  const I32_MAX := 0x7fff_ffff

  /** The fields behind the mutex, the deltas added so far, and the time (in actions) at
      which the counter last became zero. */
  datatype Group = Group(counter: int, waiters: seq<TaskId>, deltas: seq<int>, lastZero: Option<nat>)

  datatype AddOutcome = AddPanics | Added(wake: seq<TaskId>)

  function Sum(s: seq<int>): int {
    if s == [] then 0 else Sum(s[..|s| - 1]) + s[|s| - 1]
  }

  predicate InI32(n: int) {
    I32_MIN <= n <= I32_MAX
  }

  /** Two's complement. */
  function Wrapped(n: int): (r: int)
    ensures InI32(r) && (InI32(n) ==> r == n)
    ensures I32_MAX < n <= 2 * I32_MAX ==> r == n - 0x1_0000_0000
  {
    (n - I32_MIN) % 0x1_0000_0000 + I32_MIN
  }

  /** The locked section of `add`, completed at time `now`.  A build with overflow checks
      traps before the counter is written; one without them (`wraps`) wraps around.  The
      test for a negative counter comes after the write. */
  function AddLock(g: Group, delta: int, now: nat, wraps: bool): (Group, AddOutcome)
  {
    if !wraps && !InI32(g.counter + delta) then (g, AddPanics)
    else
      var g1 := g.(counter := Wrapped(g.counter + delta), deltas := g.deltas + [delta]);
      if g1.counter < 0 then (g1, AddPanics)
      else if g1.counter > 0 then (g1, Added([]))
      else (g1.(waiters := [], lastZero := Some(now)), Added(g.waiters))
  }

  /** In both builds `add` panics exactly if the sum is negative or no i32; and the counter
      is the sum whenever it does not. */
  lemma AddIsExact(g: Group, delta: int, now: nat, wraps: bool)
    requires 0 <= g.counter <= I32_MAX && InI32(delta)
    ensures var (g', o) := AddLock(g, delta, now, wraps);
      && (o.AddPanics? <==> !(0 <= g.counter + delta <= I32_MAX))
      && (o.Added? ==> g'.counter == g.counter + delta && g'.deltas == g.deltas + [delta])
      && (o.AddPanics? ==> g'.waiters == g.waiters && g'.lastZero == g.lastZero)
      && (o.AddPanics? && g' != g ==> g'.counter < 0)
  {
  }

  /** The locked section of `wait`; the flag says whether the task has to park. */
  function WaitLock(g: Group, t: TaskId): (Group, bool) {
    if g.counter == 0 then (g, false) else (g.(waiters := g.waiters + [t]), true)
  }

  /** A group made, and raised to `n`, at time `now`. */
  function Prepared(n: nat, now: nat): Group {
    Group(n, [], [n], if n == 0 then Some(now) else None)
  }

  class WaitGroup {
    var counter: int
    var waiters: seq<TaskId>
    ghost var deltas: seq<int>
    ghost var lastZero: Option<nat>

    ghost function Model(): Group
      reads this
    {
      Group(counter, waiters, deltas, lastZero)
    }

    constructor (ghost now: nat)
      ensures Model() == Prepared(0, now)
    {
      counter, waiters, deltas, lastZero := 0, [], [0], Some(now);
    }

    method Add(delta: int, wraps: bool, ghost now: nat) returns (o: AddOutcome)
      requires InI32(delta)
      modifies this
      ensures (Model(), o) == AddLock(old(Model()), delta, now, wraps)
    {
      if !wraps && !InI32(counter + delta) {
        return AddPanics;
      }
      counter, deltas := Wrapped(counter + delta), deltas + [delta];
      if counter < 0 {
        return AddPanics;
      }
      var wakeList := [];
      if counter == 0 {
        lastZero := Some(now);
        if waiters != [] {
          wakeList, waiters := waiters, [];
        }
      }
      return Added(wakeList);
    }

    method Wait(t: TaskId) returns (parks: bool)
      modifies this`waiters
      ensures (Model(), parks) == WaitLock(old(Model()), t)
    {
      if counter == 0 {
        return false;
      }
      waiters := waiters + [t];
      return true;
    }
  }

  // ---- Tasks using groups ----------------------------------------------------------------

  /** What a parked task waits for; a waiter remembers when it called `wait`. */
  datatype Goal = OnGroup(g: GroupId, since: nat) | OnTimer

  datatype Pc =
    | User
    | Waking(list: seq<TaskId>)
    | Blocked(k: Goal)
    | Resume(k: Goal)
    | Finished

  datatype Where = AtGroup(g: GroupId) | AtTimer | Flight(waker: TaskId)

  datatype Sys = Sys(
    park: PW.State,
    pc: map<TaskId, Pc>,
    groups: map<GroupId, Group>,
    regAt: map<TaskId, Where>,
    now: nat,              // number of actions so far
    wraps: bool,           // built without overflow checks
    aborted: bool
  )

  datatype Action =
    | Spawn(t: TaskId)
    | NewGroup(t: TaskId, g: GroupId)
    | Add(t: TaskId, g: GroupId, delta: int)     // `done` is Add with delta -1
    | Wait(t: TaskId, g: GroupId)
    | WakeNext(t: TaskId)
    | Sleep(t: TaskId)
    | Commit(t: TaskId)
    | Continue(t: TaskId)
    | TimerWake(t: TaskId)
    | Finish(t: TaskId)

  predicate InUser(s: Sys, t: TaskId) {
    t in s.pc && s.pc[t] == User && PW.Active(s.park, t)
  }

  predicate Enabled(s: Sys, a: Action) {
    !s.aborted &&
    match a
    case Spawn(t) => InUser(s, t)
    case NewGroup(t, g) => InUser(s, t) && g !in s.groups
    case Add(t, g, delta) => InUser(s, t) && g in s.groups && InI32(delta)
    case Wait(t, g) => InUser(s, t) && g in s.groups
    case WakeNext(t) => t in s.pc && s.pc[t].Waking? && s.pc[t].list != [] && PW.Active(s.park, t)
    case Sleep(t) => InUser(s, t)
    case Commit(t) => t in s.pc && s.pc[t].Blocked? && t in s.park.parking
    case Continue(t) => t in s.pc && s.pc[t].Resume? && PW.Active(s.park, t)
    case TimerWake(t) => t in s.regAt && s.regAt[t] == AtTimer
    case Finish(t) => InUser(s, t)
  }

  function LabelOf(s: Sys, a: Action): PW.Label
    requires Enabled(s, a)
  {
    match a
    case Spawn(_) => PW.Spawn
    case Wait(t, g) => if WaitLock(s.groups[g], t).1 then PW.Register(t) else PW.Silent
    case WakeNext(t) => PW.Ready(s.pc[t].list[0])
    case Sleep(t) => PW.Register(t)
    case Commit(t) => PW.Commit(t)
    case TimerWake(t) => PW.Ready(t)
    case Finish(t) => PW.Finish(t)
    case _ => PW.Silent
  }

  function WakingPc(list: seq<TaskId>): Pc {
    if list == [] then User else Waking(list)
  }

  function Apply(s: Sys, a: Action): Sys
    requires Enabled(s, a)
  {
    var s1 := s.(park := PW.Apply(s.park, LabelOf(s, a)), now := s.now + 1);
    match a
    case Spawn(t) => s1.(pc := s.pc[s.park.next := User])
    case NewGroup(t, g) => s1.(groups := s.groups[g := Prepared(0, s.now + 1)])
    case Add(t, g, delta) =>
      (match AddLock(s.groups[g], delta, s.now + 1, s.wraps)
       case (group, AddPanics) => s1.(groups := s.groups[g := group], aborted := true)
       case (group, Added(wake)) =>
         s1.(groups := s.groups[g := group], pc := s.pc[t := WakingPc(wake)],
             regAt := Redirect(s.regAt, wake, Flight(t))))
    case Wait(t, g) =>
      var (group, parks) := WaitLock(s.groups[g], t);
      if parks
      then s1.(groups := s.groups[g := group], pc := s.pc[t := Blocked(OnGroup(g, s.now))],
               regAt := s.regAt[t := AtGroup(g)])
      else s1
    case WakeNext(t) =>
      s1.(regAt := s.regAt - {s.pc[t].list[0]}, pc := s.pc[t := WakingPc(s.pc[t].list[1..])])
    case Sleep(t) => s1.(pc := s.pc[t := Blocked(OnTimer)], regAt := s.regAt[t := AtTimer])
    case Commit(t) => s1.(pc := s.pc[t := Resume(s.pc[t].k)])
    case Continue(t) => s1.(pc := s.pc[t := User])
    case TimerWake(t) => s1.(regAt := s.regAt - {t})
    case Finish(t) => s1.(pc := s.pc[t := Finished])
  }

  /** `n` tasks, and groups whose counters were raised to the given values, before start. */
  function Init(n: nat, counters: map<GroupId, nat>, wraps: bool): Sys {
    Sys(PW.Init(n), map t | t in FirstIds(n) :: User,
        map g | g in counters.Keys :: Prepared(counters[g], 0), map[], 0, wraps, false)
  }

  ghost predicate Run(s: Sys, acts: seq<Action>)
    decreases |acts|, 0
  {
    acts == [] ||
    (var k := |acts| - 1; Run(s, acts[..k]) && Enabled(Exec(s, acts[..k]), acts[k]))
  }

  ghost function Exec(s: Sys, acts: seq<Action>): Sys
    requires Run(s, acts)
    decreases |acts|, 1
  {
    if acts == [] then s else Apply(Exec(s, acts[..|acts| - 1]), acts[|acts| - 1])
  }

  ghost predicate GoodStart(counters: map<GroupId, nat>) {
    forall g :: g in counters ==> counters[g] <= I32_MAX
  }

  // ---- Invariant ------------------------------------------------------------------------

  ghost predicate WaitOk(s: Sys, x: TaskId, k: Goal) {
    match k
    case OnTimer => x in s.regAt ==> s.regAt[x] == AtTimer
    case OnGroup(g, since) =>
      g in s.groups && since <= s.now &&
      if x in s.regAt && !s.regAt[x].Flight?
      then s.regAt[x] == AtGroup(g) && x in s.groups[g].waiters
      else s.groups[g].lastZero.Some? && since <= s.groups[g].lastZero.value
  }

  ghost predicate TaskOk(s: Sys, x: TaskId)
    requires x in s.pc
  {
    && (x in s.park.live <==> !s.pc[x].Finished?)
    && (x in s.park.parking <==> s.pc[x].Blocked?)
    && (x in s.park.waiting ==> s.pc[x].Resume?)
    && match s.pc[x]
       case Blocked(k) => WaitOk(s, x, k)
       case Resume(k) => WaitOk(s, x, k)
       case Waking(list) =>
         list != [] && NoDup(list) && forall y :: y in list ==> y in s.regAt && s.regAt[y] == Flight(x)
       case _ => true
  }

  predicate WaitsOn(s: Sys, x: TaskId, g: GroupId) {
    x in s.pc && (s.pc[x].Blocked? || s.pc[x].Resume?) && s.pc[x].k.OnGroup? && s.pc[x].k.g == g
  }

  ghost predicate RegOk(s: Sys, x: TaskId)
    requires x in s.regAt
  {
    && x in s.pc && (s.pc[x].Blocked? || s.pc[x].Resume?)
    && match s.regAt[x]
       case AtTimer => s.pc[x].k == OnTimer
       case AtGroup(g) => WaitsOn(s, x, g)
       case Flight(w) => s.pc[x].k.OnGroup? && w in s.pc && s.pc[w].Waking? && x in s.pc[w].list
  }

  ghost predicate GroupOk(s: Sys, g: GroupId)
    requires g in s.groups
  {
    var group := s.groups[g];
    && (!s.aborted ==> group.counter == Sum(group.deltas) && 0 <= group.counter <= I32_MAX)
    && (!s.aborted && group.waiters != [] ==> group.counter > 0)
    && NoDup(group.waiters)
    && (forall y :: y in group.waiters ==> y in s.regAt && s.regAt[y] == AtGroup(g))
    && (group.lastZero.Some? ==> group.lastZero.value <= s.now)
  }

  ghost predicate Inv(s: Sys) {
    && PW.Inv(s.park)
    && s.regAt.Keys == s.park.reg
    && s.park.live <= s.pc.Keys
    && (forall x :: x in s.pc ==> x < s.park.next)
    && (forall x :: x in s.pc ==> TaskOk(s, x))
    && (forall x :: x in s.regAt ==> RegOk(s, x))
    && (forall g :: g in s.groups ==> GroupOk(s, g))
    && (s.aborted ==> exists t :: PW.Active(s.park, t))    // the task that panicked
  }

  lemma InitInv(n: nat, counters: map<GroupId, nat>, wraps: bool)
    requires GoodStart(counters)
    ensures Inv(Init(n, counters, wraps))
  {
    PW.InitInv(n);
    var s := Init(n, counters, wraps);
    forall g | g in s.groups ensures GroupOk(s, g) {
      assert [counters[g]][..0] == [];
      assert Sum([counters[g]]) == counters[g];
    }
  }

  // ---- The invariant is kept ---------------------------------------------------------------

  /** What an action of `t` on group `g` (-1 for none) may change. */
  ghost predicate Frame(s: Sys, s': Sys, t: TaskId, g: int) {
    && !s.aborted && !s'.aborted
    && t in s.pc && s.pc.Keys <= s'.pc.Keys && s.now <= s'.now
    && (forall y :: y in s.pc && y != t ==> s'.pc[y] == s.pc[y])
    && s.groups.Keys <= s'.groups.Keys
    && (forall h :: h in s.groups && h != g ==> s'.groups[h] == s.groups[h])
    && (forall y :: y != t ==> RegMove(s, s', t, g, y))
    && (t !in s.regAt || (t in s'.regAt && s'.regAt[t] == s.regAt[t]) || s.regAt[t] == AtTimer)
    && (forall y :: y in s'.regAt && s'.regAt[y] == Flight(t) ==> s'.pc[t].Waking? && y in s'.pc[t].list)
    && (forall y :: y != t && y < s.park.next ==>
          (y in s.park.live <==> y in s'.park.live) && (y in s.park.parking <==> y in s'.park.parking))
    && (forall y :: y != t && y in s'.park.waiting ==> y in s.park.waiting)
  }

  ghost predicate RegMove(s: Sys, s': Sys, t: TaskId, g: int, y: TaskId) {
    || ((y in s.regAt <==> y in s'.regAt) && (y in s.regAt ==> s.regAt[y] == s'.regAt[y]))
    || (y in s.regAt && y in s'.regAt && s.regAt[y].AtGroup? && s.regAt[y].g == g && s'.regAt[y] == Flight(t))
    || (y in s.regAt && y !in s'.regAt && s.regAt[y] == Flight(t))
  }

  lemma OtherTask(s: Sys, s': Sys, t: TaskId, g: int, x: TaskId)
    requires Frame(s, s', t, g) && x in s.pc && x != t && x < s.park.next && TaskOk(s, x)
    requires g in s.groups && WaitsOn(s, x, g) ==> WaitOk(s', x, s.pc[x].k)
    ensures TaskOk(s', x)
  {
    match s.pc[x] {
      case Waking(list) =>
        forall y | y in list ensures y in s'.regAt && s'.regAt[y] == Flight(x) {
          assert y == t || RegMove(s, s', t, g, y);
        }
      case Blocked(k) => assert RegMove(s, s', t, g, x);
      case Resume(k) => assert RegMove(s, s', t, g, x);
      case _ =>
    }
  }

  lemma OtherReg(s: Sys, s': Sys, t: TaskId, g: int, x: TaskId)
    requires Frame(s, s', t, g) && x in s'.regAt && x != t && x in s.regAt && RegOk(s, x)
    ensures RegOk(s', x)
  {
    assert RegMove(s, s', t, g, x);
  }

  lemma OtherGroup(s: Sys, s': Sys, t: TaskId, g: int, h: GroupId)
    requires Frame(s, s', t, g) && h in s.groups && h != g && GroupOk(s, h)
    ensures GroupOk(s', h)
  {
    forall y | y in s.groups[h].waiters ensures y in s'.regAt && s'.regAt[y] == AtGroup(h) {
      assert y == t || RegMove(s, s', t, g, y);
    }
  }

  lemma Preserved(s: Sys, s': Sys, t: TaskId, g: int)
    requires Inv(s) && Frame(s, s', t, g)
    requires PW.Inv(s'.park) && s'.regAt.Keys == s'.park.reg && s.park.next <= s'.park.next
    requires s'.park.live <= s'.pc.Keys
    requires forall x :: x in s'.pc && x !in s.pc ==> x < s'.park.next && TaskOk(s', x)
    requires TaskOk(s', t) && (t in s'.regAt ==> RegOk(s', t))
    requires forall h :: h in s'.groups && (h == g || h !in s.groups) ==> GroupOk(s', h)
    requires g in s.groups ==> forall x :: WaitsOn(s, x, g) && x != t ==> WaitOk(s', x, s.pc[x].k)
    ensures Inv(s')
  {
    forall x | x in s'.pc ensures TaskOk(s', x) {
      if x in s.pc && x != t {
        OtherTask(s, s', t, g, x);
      }
    }
    forall x | x in s'.regAt ensures RegOk(s', x) {
      if x != t {
        assert RegMove(s, s', t, g, x);
        OtherReg(s, s', t, g, x);
      }
    }
    forall h | h in s'.groups ensures GroupOk(s', h) {
      if h in s.groups && h != g {
        OtherGroup(s, s', t, g, h);
      }
    }
  }

  /** Nothing is registered for `t`, nor owed by it. */
  ghost predicate Unbound(s: Sys, t: TaskId) {
    && t in s.pc && t !in s.regAt
    && (forall y :: y in s.regAt ==> s.regAt[y] != Flight(t))
    && (forall g :: g in s.groups ==> t !in s.groups[g].waiters)
  }

  lemma ActiveIsUnbound(s: Sys, t: TaskId)
    requires Inv(s) && t in s.pc && !s.pc[t].Waking? && PW.Active(s.park, t)
    ensures Unbound(s, t)
  {
    assert t !in s.park.reg;
    forall y | y in s.regAt ensures s.regAt[y] != Flight(t) {
      assert RegOk(s, y);
    }
    forall g | g in s.groups ensures t !in s.groups[g].waiters {
      assert GroupOk(s, g);
    }
  }

  lemma AddAllWaiters(s: Sys, s': Sys, t: TaskId, g: GroupId, delta: int)
    requires g in s.groups && AddLock(s.groups[g], delta, s.now + 1, s.wraps).1.Added? && GroupOk(s, g)
    requires var (group, o) := AddLock(s.groups[g], delta, s.now + 1, s.wraps); AddStep(s, s', t, g, group, o.wake)
    requires forall x :: x in s.pc ==> TaskOk(s, x)
    ensures forall x :: WaitsOn(s, x, g) && x != t ==> WaitOk(s', x, s.pc[x].k)
  {
    forall x | WaitsOn(s, x, g) && x != t ensures WaitOk(s', x, s.pc[x].k) {
      assert TaskOk(s, x);
      AddWaiter(s, s', t, g, delta, x);
    }
  }

  lemma AddKeeps(s: Sys, t: TaskId, g: GroupId, delta: int)
    requires Inv(s) && Enabled(s, Action.Add(t, g, delta))
    requires AddLock(s.groups[g], delta, s.now + 1, s.wraps).1.Added?
    ensures Inv(Apply(s, Action.Add(t, g, delta)))
  {
    var s' := Apply(s, Action.Add(t, g, delta));
    ActiveIsUnbound(s, t);
    assert GroupOk(s, g) && TaskOk(s, t);
    var (group, o) := AddLock(s.groups[g], delta, s.now + 1, s.wraps);
    assert AddStep(s, s', t, g, group, o.wake);
    AddFrame(s, s', t, g, group, o.wake);
    AddGroup(s, s', t, g, delta);
    AddAllWaiters(s, s', t, g, delta);
    Preserved(s, s', t, g);
  }

  lemma AddGroup(s: Sys, s': Sys, t: TaskId, g: GroupId, delta: int)
    requires g in s.groups && Unbound(s, t) && GroupOk(s, g) && !s.aborted && InI32(delta)
    requires AddLock(s.groups[g], delta, s.now + 1, s.wraps).1.Added?
    requires var (group, o) := AddLock(s.groups[g], delta, s.now + 1, s.wraps); AddStep(s, s', t, g, group, o.wake)
    ensures GroupOk(s', g)
  {
    var group := s.groups[g];
    AddIsExact(group, delta, s.now + 1, s.wraps);
    assert (group.deltas + [delta])[..|group.deltas|] == group.deltas;
  }

  ghost predicate AddStep(s: Sys, s': Sys, t: TaskId, g: GroupId, group: Group, wake: seq<TaskId>) {
    && t in s.pc && g in s.groups
    && s' == s.(now := s.now + 1, groups := s.groups[g := group], pc := s.pc[t := WakingPc(wake)],
                regAt := Redirect(s.regAt, wake, Flight(t)))
  }

  lemma AddFrame(s: Sys, s': Sys, t: TaskId, g: GroupId, group: Group, wake: seq<TaskId>)
    requires AddStep(s, s', t, g, group, wake) && Unbound(s, t) && TaskOk(s, t) && s.pc[t] == User && !s.aborted
    requires NoDup(wake) && forall y :: y in wake ==> y in s.regAt && s.regAt[y] == AtGroup(g)
    ensures Frame(s, s', t, g) && TaskOk(s', t) && s'.regAt.Keys == s.regAt.Keys
  {
  }

  lemma AddWaiter(s: Sys, s': Sys, t: TaskId, g: GroupId, delta: int, x: TaskId)
    requires g in s.groups && AddLock(s.groups[g], delta, s.now + 1, s.wraps).1.Added? && GroupOk(s, g)
    requires var (group, o) := AddLock(s.groups[g], delta, s.now + 1, s.wraps); AddStep(s, s', t, g, group, o.wake)
    requires WaitsOn(s, x, g) && WaitOk(s, x, s.pc[x].k)
    ensures WaitOk(s', x, s.pc[x].k)
  {
  }

  lemma WaitParks(s: Sys, t: TaskId, g: GroupId)
    requires Inv(s) && Enabled(s, Action.Wait(t, g)) && s.groups[g].counter != 0
    ensures Inv(Apply(s, Action.Wait(t, g)))
  {
    var s' := Apply(s, Action.Wait(t, g));
    ActiveIsUnbound(s, t);
    PW.StepInv(s.park, PW.Register(t));
    assert GroupOk(s, g) && TaskOk(s, t);
    WaitGroupOk(s, s', t, g);
    forall x | WaitsOn(s, x, g) && x != t ensures WaitOk(s', x, s.pc[x].k) {
      assert TaskOk(s, x);
    }
    Preserved(s, s', t, g);
  }

  lemma WaitGroupOk(s: Sys, s': Sys, t: TaskId, g: GroupId)
    requires Enabled(s, Action.Wait(t, g)) && s.groups[g].counter != 0
    requires Unbound(s, t) && GroupOk(s, g) && TaskOk(s, t)
    requires s' == Apply(s, Action.Wait(t, g))
    ensures GroupOk(s', g) && Frame(s, s', t, g) && TaskOk(s', t) && RegOk(s', t)
  {
  }

  lemma WakeKeeps(s: Sys, t: TaskId)
    requires Inv(s) && Enabled(s, WakeNext(t))
    ensures Inv(Apply(s, WakeNext(t)))
  {
    var s' := Apply(s, WakeNext(t));
    var y := s.pc[t].list[0];
    assert TaskOk(s, t) && y in s.pc[t].list;
    assert RegOk(s, y) && t !in s.park.reg;
    PW.StepInv(s.park, PW.Ready(y));
    forall x | x in s.regAt && s.regAt[x] == Flight(t) ensures x in s.pc[t].list {
      assert RegOk(s, x);
    }
    WakeFrame(s, s', t);
    Preserved(s, s', t, -1);
  }

  lemma WakeFrame(s: Sys, s': Sys, t: TaskId)
    requires Enabled(s, WakeNext(t)) && s' == Apply(s, WakeNext(t)) && TaskOk(s, t) && t !in s.regAt
    requires forall x :: x in s.regAt && s.regAt[x] == Flight(t) ==> x in s.pc[t].list
    ensures Frame(s, s', t, -1) && TaskOk(s', t)
  {
    var list := s.pc[t].list;
    forall x | x in list[1..] ensures x in list && x != list[0] {
      var i :| 0 <= i < |list| - 1 && list[1..][i] == x;
      assert list[i + 1] == x;
    }
    assert list[0] in list;
  }

  /** The actions that concern only the acting task. */
  lemma SoloKeeps(s: Sys, a: Action)
    requires Inv(s) && Enabled(s, a)
    requires a.Sleep? || a.Commit? || a.Continue? || a.TimerWake? || a.Finish?
    ensures Inv(Apply(s, a))
  {
    SoloIsFree(s, a);
    PW.StepInv(s.park, LabelOf(s, a));
    SoloFrame(s, Apply(s, a), a);
    Preserved(s, Apply(s, a), a.t, -1);
  }

  lemma SoloIsFree(s: Sys, a: Action)
    requires Inv(s) && Enabled(s, a)
    requires a.Sleep? || a.Commit? || a.Continue? || a.TimerWake? || a.Finish?
    ensures a.t in s.pc && TaskOk(s, a.t)
    ensures a.Sleep? || a.Continue? || a.Finish? ==> a.t !in s.regAt
    ensures a.t in s.regAt ==> RegOk(s, a.t)
    ensures forall y :: y in s.regAt ==> s.regAt[y] != Flight(a.t)
    ensures PW.Enabled(s.park, LabelOf(s, a)) && PW.Disciplined(s.park, LabelOf(s, a))
  {
    if a.TimerWake? {
      assert RegOk(s, a.t);
    } else if !a.Commit? {
      ActiveIsUnbound(s, a.t);
    }
    assert TaskOk(s, a.t);
    forall y | y in s.regAt ensures s.regAt[y] != Flight(a.t) {
      assert RegOk(s, y);
    }
  }

  lemma SoloFrame(s: Sys, s': Sys, a: Action)
    requires Enabled(s, a) && s' == Apply(s, a) && a.t in s.pc && TaskOk(s, a.t)
    requires a.Sleep? || a.Commit? || a.Continue? || a.TimerWake? || a.Finish?
    requires a.Sleep? || a.Continue? || a.Finish? ==> a.t !in s.regAt
    requires a.t in s.regAt ==> RegOk(s, a.t)
    requires forall y :: y in s.regAt ==> s.regAt[y] != Flight(a.t)
    ensures Frame(s, s', a.t, -1) && TaskOk(s', a.t) && (a.t in s'.regAt ==> RegOk(s', a.t))
  {
  }

  lemma SpawnKeeps(s: Sys, a: Action)
    requires Inv(s) && Enabled(s, a) && (a.Spawn? || a.NewGroup?)
    ensures Inv(Apply(s, a))
  {
    var s' := Apply(s, a);
    ActiveIsUnbound(s, a.t);
    PW.StepInv(s.park, LabelOf(s, a));
    assert TaskOk(s, a.t);
    assert s.park.next !in s.park.live && s.park.next !in s.pc;
    assert [0][..0] == [];
    assert Sum([0]) == 0;
    Preserved(s, s', a.t, -1);
  }

  /** A `wait` that returns at once changes nothing but the clock. */
  lemma TickKeeps(s: Sys)
    requires Inv(s)
    ensures Inv(s.(now := s.now + 1))
  {
    var s' := s.(now := s.now + 1);
    forall x | x in s'.pc ensures TaskOk(s', x) {
      assert TaskOk(s, x);
    }
    forall x | x in s'.regAt ensures RegOk(s', x) {
      assert RegOk(s, x);
    }
    forall g | g in s'.groups ensures GroupOk(s', g) {
      assert GroupOk(s, g);
    }
  }

  /** A panic in `add`, which may have written a negative counter. */
  lemma AbortKeeps(s: Sys, s': Sys, t: TaskId, g: GroupId)
    requires Inv(s) && PW.Active(s.park, t) && g in s.groups && g in s'.groups
    requires s' == s.(now := s.now + 1, groups := s.groups[g := s'.groups[g]], aborted := true)
    requires s'.groups[g].waiters == s.groups[g].waiters && s'.groups[g].lastZero == s.groups[g].lastZero
    ensures Inv(s')
  {
    forall x | x in s'.pc ensures TaskOk(s', x) {
      assert TaskOk(s, x);
    }
    forall x | x in s'.regAt ensures RegOk(s', x) {
      assert RegOk(s, x);
    }
    forall h | h in s'.groups ensures GroupOk(s', h) {
      assert GroupOk(s, h);
    }
  }

  lemma AddActionKeeps(s: Sys, t: TaskId, g: GroupId, delta: int)
    requires Inv(s) && Enabled(s, Action.Add(t, g, delta))
    ensures Inv(Apply(s, Action.Add(t, g, delta)))
  {
    if AddLock(s.groups[g], delta, s.now + 1, s.wraps).1.Added? {
      AddKeeps(s, t, g, delta);
    } else {
      assert GroupOk(s, g);
      AddIsExact(s.groups[g], delta, s.now + 1, s.wraps);
      AbortKeeps(s, Apply(s, Action.Add(t, g, delta)), t, g);
    }
  }

  lemma WaitActionKeeps(s: Sys, t: TaskId, g: GroupId)
    requires Inv(s) && Enabled(s, Action.Wait(t, g))
    ensures Inv(Apply(s, Action.Wait(t, g)))
  {
    if s.groups[g].counter != 0 {
      WaitParks(s, t, g);
    } else {
      TickKeeps(s);
    }
  }

  lemma StepKeepsInv(s: Sys, a: Action)
    requires Inv(s) && Enabled(s, a)
    ensures Inv(Apply(s, a))
  {
    match a {
      case Add(t, g, delta) => AddActionKeeps(s, t, g, delta);
      case Wait(t, g) => WaitActionKeeps(s, t, g);
      case WakeNext(t) => WakeKeeps(s, t);
      case Spawn(_) => SpawnKeeps(s, a);
      case NewGroup(_, _) => SpawnKeeps(s, a);
      case _ => SoloKeeps(s, a);
    }
  }

  lemma {:induction false} RunKeeps(s: Sys, acts: seq<Action>)
    requires Inv(s) && Run(s, acts)
    ensures Inv(Exec(s, acts)) && Exec(s, acts).now == s.now + |acts|
  {
    if acts != [] {
      var k := |acts| - 1;
      RunKeeps(s, acts[..k]);
      StepKeepsInv(Exec(s, acts[..k]), acts[k]);
    }
  }

  lemma RunKeepsInv(n: nat, counters: map<GroupId, nat>, wraps: bool, acts: seq<Action>)
    requires GoodStart(counters) && Run(Init(n, counters, wraps), acts)
    ensures var s := Exec(Init(n, counters, wraps), acts); Inv(s) && s.now == |acts|
  {
    InitInv(n, counters, wraps);
    RunKeeps(Init(n, counters, wraps), acts);
  }

  // ---- What WaitGroup guarantees ----------------------------------------------------------

  /** In every reachable state that is not aborted the counter is the sum of all deltas, is
      never negative and fits an i32; and nobody waits on a group whose counter is zero.
      That holds with and without overflow checks. */
  lemma CounterIsSum(n: nat, counters: map<GroupId, nat>, wraps: bool, acts: seq<Action>, g: GroupId)
    requires GoodStart(counters) && Run(Init(n, counters, wraps), acts)
    ensures var s := Exec(Init(n, counters, wraps), acts);
      g in s.groups && !s.aborted ==>
        && s.groups[g].counter == Sum(s.groups[g].deltas)
        && 0 <= s.groups[g].counter <= I32_MAX
        && (s.groups[g].waiters != [] ==> s.groups[g].counter > 0)
  {
    RunKeepsInv(n, counters, wraps, acts);
    var s := Exec(Init(n, counters, wraps), acts);
    assert g in s.groups ==> GroupOk(s, g);
  }

  /** After the first `z` actions the counter was zero. */
  ghost predicate WasZero(s: Sys, acts: seq<Action>, z: nat, g: GroupId) {
    z <= |acts| && Run(s, acts[..z]) && ZeroAt(Exec(s, acts[..z]), g)
  }

  lemma WasZeroLater(s: Sys, acts: seq<Action>, k: nat, z: nat, g: GroupId)
    requires k <= |acts| && WasZero(s, acts[..k], z, g)
    ensures WasZero(s, acts, z, g)
  {
    assert acts[..k][..z] == acts[..z];
  }

  /** If a time of zero is recorded in `s`, which the run leads to, it is right. */
  ghost predicate TimeIsRight(start: Sys, acts: seq<Action>, s: Sys, g: GroupId) {
    g in s.groups && s.groups[g].lastZero.Some? ==> WasZero(start, acts, s.groups[g].lastZero.value, g)
  }

  lemma TimeStaysRight(start: Sys, acts: seq<Action>, r: Sys, g: GroupId)
    requires acts != [] && Run(start, acts) && r == Exec(start, acts[..|acts| - 1])
    requires Inv(r) && r.now == |acts| - 1
    requires TimeIsRight(start, acts[..|acts| - 1], r, g)
    ensures TimeIsRight(start, acts, Apply(r, acts[|acts| - 1]), g)
  {
    var (k, s) := (|acts| - 1, Apply(r, acts[|acts| - 1]));
    if g in s.groups && s.groups[g].lastZero.Some? {
      if s.groups[g].lastZero.value == |acts| {
        ZeroNow(r, acts[k], g);
        assert acts[..|acts|] == acts;
      } else {
        ZeroBefore(r, acts[k], g);
        WasZeroLater(start, acts, k, s.groups[g].lastZero.value, g);
      }
    }
  }

  lemma {:induction false} TimesAreRight(start: Sys, acts: seq<Action>, g: GroupId)
    requires Inv(start) && start.now == 0 && Run(start, acts) && TimeIsRight(start, [], start, g)
    ensures TimeIsRight(start, acts, Exec(start, acts), g)
  {
    if acts != [] {
      var k := |acts| - 1;
      TimesAreRight(start, acts[..k], g);
      RunKeeps(start, acts[..k]);
      TimeStaysRight(start, acts, Exec(start, acts[..k]), g);
    }
  }

  /** The recorded time is right: at `lastZero` the counter was zero. */
  lemma LastZeroIsTrue(
    n: nat, counters: map<GroupId, nat>, wraps: bool, acts: seq<Action>, g: GroupId)
    requires GoodStart(counters) && Run(Init(n, counters, wraps), acts)
    ensures TimeIsRight(Init(n, counters, wraps), acts, Exec(Init(n, counters, wraps), acts), g)
  {
    var start := Init(n, counters, wraps);
    InitInv(n, counters, wraps);
    if g in start.groups && start.groups[g].lastZero.Some? {
      assert ZeroAt(Exec(start, [][..0]), g);
    }
    TimesAreRight(start, acts, g);
  }

  predicate ZeroAt(s: Sys, g: GroupId) {
    g in s.groups && s.groups[g].counter == 0
  }

  lemma ZeroNow(s: Sys, a: Action, g: GroupId)
    requires Inv(s) && Enabled(s, a) && g in Apply(s, a).groups
    requires Apply(s, a).groups[g].lastZero == Some(s.now + 1)
    ensures ZeroAt(Apply(s, a), g)
  {
    assert g in s.groups ==> GroupOk(s, g);
  }

  lemma ZeroBefore(s: Sys, a: Action, g: GroupId)
    requires Enabled(s, a) && g in Apply(s, a).groups
    requires Apply(s, a).groups[g].lastZero != Some(s.now + 1)
    ensures Apply(s, a).groups[g].lastZero.Some? ==>
              g in s.groups && s.groups[g].lastZero == Apply(s, a).groups[g].lastZero
  {
  }

  /** A task that is about to return from a `wait` recorded as made at time `since` had the
      counter at zero at some moment since then. */
  lemma WaitSawZero(
    n: nat, counters: map<GroupId, nat>, wraps: bool, acts: seq<Action>, t: TaskId, g: GroupId, since: nat)
    requires GoodStart(counters) && Run(Init(n, counters, wraps), acts)
    requires Enabled(Exec(Init(n, counters, wraps), acts), Continue(t))
    requires Exec(Init(n, counters, wraps), acts).pc[t].k == OnGroup(g, since)
    ensures exists z: nat :: since <= z && WasZero(Init(n, counters, wraps), acts, z, g)
  {
    RunKeepsInv(n, counters, wraps, acts);
    var s := Exec(Init(n, counters, wraps), acts);
    assert TaskOk(s, t) && t !in s.park.reg;
    LastZeroIsTrue(n, counters, wraps, acts, g);
  }

  /** An `add` that brings the counter to zero takes all waiters, each once, to wake them;
      one that would leave the range aborts and wakes nobody; any other only counts.  Other
      groups are left alone. */
  lemma AddWakesAllAtZero(s: Sys, t: TaskId, g: GroupId, delta: int)
    requires Inv(s) && Enabled(s, Action.Add(t, g, delta))
    ensures var s' := Apply(s, Action.Add(t, g, delta));
      var sum := s.groups[g].counter + delta;
      && s'.groups.Keys == s.groups.Keys
      && (forall h :: h in s.groups && h != g ==> s'.groups[h] == s.groups[h])
      && (s'.aborted <==> sum < 0 || sum > I32_MAX)
      && (s'.aborted ==> s'.groups[g].waiters == s.groups[g].waiters && s'.regAt == s.regAt && s'.pc == s.pc)
      && (!s'.aborted ==> s'.groups[g].counter == sum)
      && (sum == 0 ==>
            && s'.groups[g].waiters == []
            && (forall y :: y in s.groups[g].waiters ==> y in s'.regAt && s'.regAt[y] == Flight(t))
            && s'.pc[t] == WakingPc(s.groups[g].waiters) && NoDup(s.groups[g].waiters))
      && (0 < sum <= I32_MAX ==>
            s'.groups[g].waiters == s.groups[g].waiters && s'.regAt == s.regAt && s'.pc == s.pc)
  {
    assert GroupOk(s, g);
    AddIsExact(s.groups[g], delta, s.now + 1, s.wraps);
    var s' := Apply(s, Action.Add(t, g, delta));
    if 0 < s.groups[g].counter + delta <= I32_MAX {
      assert s'.pc == s.pc[t := User] == s.pc;
      assert s'.regAt == Redirect(s.regAt, [], Flight(t)) == s.regAt;
    }
  }

  ghost function Labels(s: Sys, acts: seq<Action>): seq<PW.Label>
    requires Run(s, acts)
  {
    if acts == [] then []
    else Labels(s, acts[..|acts| - 1]) + [LabelOf(Exec(s, acts[..|acts| - 1]), acts[|acts| - 1])]
  }

  lemma LabelIsDisciplined(s: Sys, a: Action)
    requires Inv(s) && Enabled(s, a)
    ensures PW.Enabled(s.park, LabelOf(s, a)) && PW.Disciplined(s.park, LabelOf(s, a))
    ensures Apply(s, a).park == PW.Apply(s.park, LabelOf(s, a))
  {
    if a.WakeNext? {
      assert TaskOk(s, a.t) && s.pc[a.t].list[0] in s.pc[a.t].list;
    }
  }

  lemma {:induction false} RunIsDisciplined(n: nat, counters: map<GroupId, nat>, wraps: bool, acts: seq<Action>)
    requires GoodStart(counters) && Run(Init(n, counters, wraps), acts)
    ensures var ls := Labels(Init(n, counters, wraps), acts);
      PW.Run(PW.Init(n), ls) && Exec(Init(n, counters, wraps), acts).park == PW.Exec(PW.Init(n), ls)
  {
    if acts != [] {
      var k := |acts| - 1;
      var before := Exec(Init(n, counters, wraps), acts[..k]);
      RunIsDisciplined(n, counters, wraps, acts[..k]);
      RunKeepsInv(n, counters, wraps, acts[..k]);
      LabelIsDisciplined(before, acts[k]);
      PW.ExtendRun(PW.Init(n), Labels(Init(n, counters, wraps), acts[..k]), LabelOf(before, acts[k]));
    }
  }

  /** Reaching zero wakes each registered waiter exactly once even if it has not parked
      yet: whenever a task runs between operations, its waits, the wakeups it got and its
      parks are equally many, and no token is left. */
  lemma EveryWaitMatched(n: nat, counters: map<GroupId, nat>, wraps: bool, acts: seq<Action>, t: TaskId)
    requires GoodStart(counters) && Run(Init(n, counters, wraps), acts)
    requires PW.Active(Exec(Init(n, counters, wraps), acts).park, t)
    ensures var ls := Labels(Init(n, counters, wraps), acts);
      PW.Occurs(ls, PW.Register(t)) == PW.Occurs(ls, PW.Ready(t)) == PW.Occurs(ls, PW.Commit(t))
    ensures t !in Exec(Init(n, counters, wraps), acts).park.pending
  {
    RunIsDisciplined(n, counters, wraps, acts);
    PW.ActiveIsSettled(n, Labels(Init(n, counters, wraps), acts), t);
  }

  /** If no task can run and no timer is pending, every live task waits in a group whose
      counter is still positive. */
  lemma OnlyRealWaits(n: nat, counters: map<GroupId, nat>, wraps: bool, acts: seq<Action>, x: TaskId)
    requires GoodStart(counters) && Run(Init(n, counters, wraps), acts)
    requires var s := Exec(Init(n, counters, wraps), acts);
      && (forall t :: t in s.park.live ==> t in s.park.waiting)
      && (forall t :: t in s.regAt ==> s.regAt[t] != AtTimer)
      && x in s.park.live
    ensures var s := Exec(Init(n, counters, wraps), acts);
      exists g :: g in s.groups && x in s.groups[g].waiters && s.groups[g].counter > 0
  {
    RunKeepsInv(n, counters, wraps, acts);
    RealWait(Exec(Init(n, counters, wraps), acts), x);
  }

  lemma RealWait(s: Sys, x: TaskId)
    requires Inv(s) && x in s.park.live
    requires forall t :: t in s.park.live ==> t in s.park.waiting
    requires forall t :: t in s.regAt ==> s.regAt[t] != AtTimer
    ensures exists g :: g in s.groups && x in s.groups[g].waiters && s.groups[g].counter > 0
  {
    assert TaskOk(s, x) && x in s.regAt && RegOk(s, x);
    if s.regAt[x].Flight? {
      WakerIsActive(s, x);
    }
    assert WaitOk(s, x, s.pc[x].k) && GroupOk(s, s.pc[x].k.g);
  }

  lemma WakerIsActive(s: Sys, x: TaskId)
    requires Inv(s) && x in s.regAt && s.regAt[x].Flight?
    ensures s.regAt[x].waker in s.park.live && s.regAt[x].waker !in s.park.waiting
  {
    assert RegOk(s, x);
    assert TaskOk(s, s.regAt[x].waker);
  }
}
