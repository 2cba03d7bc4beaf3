/** The N:1 runtime of green.rs: one worker, one queue, round robin. */
module Green {
  import opened Common
  import opened Programs

  /** What a run of the loop does: the slices it executes, in order, and the programs of
      the tasks created on the way, in the order of their identifiers. */
  datatype Outcome<L> = Outcome(trace: Trace<L>, born: seq<Prog<L>>)

  /** The queue after the slice of its first task: children first, then the task itself if
      it yielded. */
  function Requeued<L>(q: seq<Job<L>>, next: TaskId): seq<Job<L>>
    requires q != []
  {
    var Job(id, p) := q[0];
    q[1..] + Numbered(p.spawns, next) + if p.rest.Some? then [Job(id, p.rest.value)] else []
  }

  /** Each slice makes the queue smaller by one slice. */
  lemma RequeuedShrinks<L>(q: seq<Job<L>>, next: TaskId)
    requires q != []
    ensures SizeAll(Progs(q)) == 1 + SizeAll(Progs(Requeued(q, next)))
    ensures SlicesOf(Progs(q)) == multiset{q[0].prog.tag} + SlicesOf(Progs(Requeued(q, next)))
  {
    var p := q[0].prog;
    var back := if p.rest.Some? then [p.rest.value] else [];
    assert Progs(q)[1..] == Progs(q[1..]);
    ProgsRequeued(q, next, back);
    SizeAppend(Progs(q[1..]), p.spawns);
    SizeAppend(Progs(q[1..]) + p.spawns, back);
    SizeOfRest(p, back);
  }

  lemma ProgsRequeued<L>(q: seq<Job<L>>, next: TaskId, back: seq<Prog<L>>)
    requires q != [] && back == if q[0].prog.rest.Some? then [q[0].prog.rest.value] else []
    ensures Progs(Requeued(q, next)) == (Progs(q[1..]) + q[0].prog.spawns) + back
  {
  }

  lemma SizeOfRest<L>(p: Prog<L>, back: seq<Prog<L>>)
    requires back == if p.rest.Some? then [p.rest.value] else []
    ensures Size(p) == 1 + SizeAll(p.spawns) + SizeAll(back)
    ensures AllSlices(p) == multiset{p.tag} + SlicesOf(p.spawns) + SlicesOf(back)
  {
    assert back != [] ==> back[1..] == [];
  }

  /** The run of the loop from queue `q`. */
  ghost function RunAll<L>(q: seq<Job<L>>, next: TaskId): Outcome<L>
    decreases SizeAll(Progs(q))
  {
    if q == [] then Outcome([], [])
    else
      RequeuedShrinks(q, next);
      var r := RunAll(Requeued(q, next), next + |q[0].prog.spawns|);
      Outcome([(q[0].id, q[0].prog.tag)] + r.trace, q[0].prog.spawns + r.born)
  }

  lemma OneTurn<L>(q: seq<Job<L>>, next: TaskId, log: Trace<L>, born: seq<Prog<L>>)
    requires q != []
    ensures var (p, r) := (q[0].prog, RunAll(Requeued(q, next), next + |q[0].prog.spawns|));
      && log + [(q[0].id, p.tag)] + r.trace == log + RunAll(q, next).trace
      && born + p.spawns + r.born == born + RunAll(q, next).born
  {
  }

  // ---- Every task's account ------------------------------------------------------------------

  ghost predicate DistinctBelow<L>(q: seq<Job<L>>, next: TaskId) {
    && (forall i :: 0 <= i < |q| ==> q[i].id < next)
    && (forall i, j :: 0 <= i < j < |q| ==> q[i].id != q[j].id)
  }

  /** The tags that task `id` has to execute in all. */
  ghost function Promised<L>(born: seq<Prog<L>>, id: TaskId): seq<L> {
    if id < |born| then Labels(born[id]) else []
  }

  /** The jobs in line belong to different tasks, and what each task executed, then what its
      job still says, is what it was created with. */
  ghost predicate Account<L>(line: seq<Job<L>>, born: seq<Prog<L>>, log: Trace<L>) {
    && DistinctBelow(line, |born|)
    && forall id: TaskId :: Own(log, id) + Due(line, id) == Promised(born, id)
  }

  lemma EmptyAccount<L>()
    ensures Account<L>([], [], [])
  {
  }

  lemma GoAccount<L>(a: seq<Job<L>>, b: seq<Job<L>>, born: seq<Prog<L>>, log: Trace<L>, p: Prog<L>)
    requires Account(a + b, born, log)
    ensures Account(a + [Job(|born|, p)] + b, born + [p], log)
  {
    JobJoins(a, b, Job(|born|, p), |born|);
    forall id: TaskId ensures Own(log, id) + Due(a + [Job(|born|, p)] + b, id) == Promised(born + [p], id) {
      GoPromise(a, b, born, Own(log, id), p, id);
    }
  }

  lemma JobJoins<L>(a: seq<Job<L>>, b: seq<Job<L>>, job: Job<L>, next: TaskId)
    requires DistinctBelow(a + b, next) && job.id == next
    ensures DistinctBelow(a + [job] + b, next + 1)
  {
    var line := a + [job] + b;
    forall i | 0 <= i < |line| ensures line[i] == if i == |a| then job else (a + b)[if i < |a| then i else i - 1] {
    }
  }

  lemma GoPromise<L>(a: seq<Job<L>>, b: seq<Job<L>>, born: seq<Prog<L>>, done: seq<L>, p: Prog<L>, id: TaskId)
    requires DistinctBelow(a + b, |born|) && done + Due(a + b, id) == Promised(born, id)
    ensures done + Due(a + [Job(|born|, p)] + b, id) == Promised(born + [p], id)
  {
    JobBetween(a, Job(|born|, p), b, id);
    if id == |born| {
      DueNone(a + b, id);
      assert Due(a, id) == [] && Due(b, id) == [] && done == [];
    } else {
      assert Due(a, id) + [] + Due(b, id) == Due(a + b, id);
    }
  }

  lemma JobBetween<L>(a: seq<Job<L>>, job: Job<L>, b: seq<Job<L>>, id: TaskId)
    ensures Due(a + [job] + b, id) == Due(a, id) + (if id == job.id then Labels(job.prog) else []) + Due(b, id)
    ensures Due(a + b, id) == Due(a, id) + Due(b, id)
  {
    DueAppend(a + [job], b, id);
    DueAppend(a, [job], id);
    DueAppend(a, b, id);
    DueSingle(job, id);
  }

  lemma DueSingle<L>(job: Job<L>, id: TaskId)
    ensures Due([job], id) == if id == job.id then Labels(job.prog) else []
  {
    assert [job][1..] == [];
  }

  /** The first in line may go to the end. */
  lemma RotateAccount<L>(q: seq<Job<L>>, born: seq<Prog<L>>, log: Trace<L>)
    requires q != [] && Account(q, born, log)
    ensures Account(q[1..] + [q[0]], born, log)
  {
    var line := q[1..] + [q[0]];
    forall id: TaskId ensures Due(line, id) == Due(q, id) {
      JobBetween(q[1..], q[0], [], id);
      JobBetween([], q[0], q[1..], id);
      assert q[1..] + [q[0]] + [] == line && [] + [q[0]] + q[1..] == q;
      if id == q[0].id {
        DueNone(q[1..], id);
      }
    }
  }

  /** A slice moves one tag from what the last in line is due to what it executed. */
  lemma SliceAccount<L>(line: seq<Job<L>>, job: Job<L>, born: seq<Prog<L>>, log: Trace<L>)
    requires Account(line + [job], born, log)
    ensures var back := if job.prog.rest.Some? then [Job(job.id, job.prog.rest.value)] else [];
      Account(line + back, born, log + [(job.id, job.prog.tag)])
  {
    var back := if job.prog.rest.Some? then [Job(job.id, job.prog.rest.value)] else [];
    assert (line + [job])[|line|] == job;
    assert forall i :: 0 <= i < |line| ==> line[i] == (line + [job])[i];
    forall id: TaskId
      ensures Own(log + [(job.id, job.prog.tag)], id) + Due(line + back, id) == Promised(born, id)
    {
      OwnPush(log, job.id, job.prog.tag, id);
      SlicePromise(line, job, back, Own(log, id), Promised(born, id), id);
    }
  }

  lemma SlicePromise<L>(
    line: seq<Job<L>>, job: Job<L>, back: seq<Job<L>>, done: seq<L>, whole: seq<L>, id: TaskId)
    requires forall i :: 0 <= i < |line| ==> line[i].id != job.id
    requires back == if job.prog.rest.Some? then [Job(job.id, job.prog.rest.value)] else []
    requires done + Due(line + [job], id) == whole
    ensures (if id == job.id then done + [job.prog.tag] else done) + Due(line + back, id) == whole
  {
    DueAppend(line, [job], id);
    DueAppend(line, back, id);
    DueOfFirst(job, back, id);
    if id == job.id {
      DueNone(line, id);
      Regroup(done, [job.prog.tag], Due(back, id));
    } else {
      DueNone(back, id);
    }
  }

  lemma Regroup<L>(a: seq<L>, b: seq<L>, c: seq<L>)
    ensures a + (b + c) == (a + b) + c
  {
  }

  /** The worker of green.rs.  `log` records the slices executed and `born` the programs of
      all tasks, by identifier. */
  class Worker<L> {
    var tasks: seq<Job<L>>
    var current: Option<Job<L>>
    var next: TaskId
    ghost var log: Trace<L>
    ghost var born: seq<Prog<L>>

    /** The tasks that are not finished; the current one counts as last. */
    ghost function Line(): seq<Job<L>>
      reads this
    {
      tasks + if current.Some? then [current.value] else []
    }

    ghost predicate Valid()
      reads this
    {
      next == |born| && Account(Line(), born, log)
    }

    constructor ()
      ensures Valid() && tasks == [] && current == None && next == 0 && log == [] && born == []
    {
      tasks, current, next, log, born := [], None, 0, [], [];
      new;
      EmptyAccount<L>();
    }

    method Go(p: Prog<L>)
      requires Valid()
      modifies this`tasks, this`next, this`born
      ensures Valid() && born == old(born) + [p]
      ensures tasks == old(tasks) + [Job(old(next), p)] && next == old(next) + 1
    {
      GoAccount(tasks, if current.Some? then [current.value] else [], born, log, p);
      tasks := tasks + [Job(next, p)];
      next, born := next + 1, born + [p];
    }

    /** One context switch into the current task: it runs its next slice, calling `go` for
        each child, and switches back having yielded or finished. */
    method SwitchTo()
      requires Valid() && current.Some?
      modifies this
      ensures Valid()
      ensures var Job(id, p) := old(current.value);
        && tasks == old(tasks) + Numbered(p.spawns, old(next))
        && next == old(next) + |p.spawns|
        && current == (if p.rest.Some? then Some(Job(id, p.rest.value)) else None)
        && log == old(log) + [(id, p.tag)] && born == old(born) + p.spawns
    {
      var Job(id, p) := current.value;
      for i := 0 to |p.spawns|
        invariant Valid() && log == old(log) && current == old(current)
        invariant tasks == old(tasks) + Numbered(p.spawns[..i], old(next))
        invariant next == old(next) + i && born == old(born) + p.spawns[..i]
      {
        Go(p.spawns[i]);
        assert p.spawns[..i + 1] == p.spawns[..i] + [p.spawns[i]];
        assert Numbered(p.spawns[..i + 1], old(next))
            == Numbered(p.spawns[..i], old(next)) + [Job(old(next) + i, p.spawns[i])];
      }
      assert p.spawns[..|p.spawns|] == p.spawns;
      SliceAccount(tasks, current.value, born, log);
      log := log + [(id, p.tag)];
      current := if p.rest.Some? then Some(Job(id, p.rest.value)) else None;
    }

    /** `worker_loop`: terminates for all finite programs, with an empty queue, and by then
        every task ever created has executed each of its slices once, in program order. */
    method WorkerLoop()
      requires Valid() && current == None
      modifies this
      ensures Valid() && tasks == [] && current == None
      ensures log == old(log) + RunAll(old(tasks), old(next)).trace
      ensures born == old(born) + RunAll(old(tasks), old(next)).born
      ensures forall id: TaskId :: Own(log, id) == Promised(born, id)
    {
      while tasks != []
        invariant Valid() && current == None
        invariant log + RunAll(tasks, next).trace == old(log) + RunAll(old(tasks), old(next)).trace
        invariant born + RunAll(tasks, next).born == old(born) + RunAll(old(tasks), old(next)).born
        decreases SizeAll(Progs(tasks))
      {
        ghost var q, n, l, m := tasks, next, log, born;
        RequeuedShrinks(q, n);
        Turn();
        OneTurn(q, n, l, m);
      }
    }

    /** The body of the loop. */
    method Turn()
      requires Valid() && current == None && tasks != []
      modifies this
      ensures Valid() && current == None
      ensures tasks == Requeued(old(tasks), old(next))
      ensures var Job(id, p) := old(tasks)[0];
        && next == old(next) + |p.spawns|
        && log == old(log) + [(id, p.tag)] && born == old(born) + p.spawns
    {
      assert Line() == tasks;
      RotateAccount(tasks, born, log);
      var task := tasks[0];
      tasks := tasks[1..];
      current := Some(task);
      SwitchTo();
      ghost var line := Line();
      if current.Some? {
        tasks := tasks + [current.value];
        current := None;
      }
      assert Line() == line;
    }
  }

  // ---- Every slice exactly once, in program order --------------------------------------------

  lemma RequeuedDistinct<L>(q: seq<Job<L>>, next: TaskId)
    requires q != [] && DistinctBelow(q, next)
    ensures DistinctBelow(Requeued(q, next), next + |q[0].prog.spawns|)
  {
  }

  /** After its slice the first task is due the rest of its program, its children are due
      theirs, and nothing else changes. */
  lemma DueAfter<L>(q: seq<Job<L>>, next: TaskId, born: seq<Prog<L>>, id: TaskId)
    requires q != [] && DistinctBelow(q, next)
    ensures var Job(first, p) := q[0];
      Due(q + Numbered(p.spawns + born, next), id)
      == (if id == first then [p.tag] else []) + Due(Requeued(q, next) + Numbered(born, next + |p.spawns|), id)
  {
    var Job(first, p) := q[0];
    var back := if p.rest.Some? then [Job(first, p.rest.value)] else [];
    var kids, later := Numbered(p.spawns, next), Numbered(born, next + |p.spawns|);
    assert Numbered(p.spawns + born, next) == kids + later;
    assert q + (kids + later) == [q[0]] + (q[1..] + (kids + later));
    assert Requeued(q, next) + later == q[1..] + (kids + (back + later));
    DueOfThree([q[0]], q[1..], kids, later, id);
    DueOfThree(q[1..], kids, back, later, id);
    DueOfFirst(q[0], back, id);
    if id == first {
      DueNone(q[1..], id);
      DueNone(kids, id);
    }
  }

  lemma DueOfThree<L>(a: seq<Job<L>>, b: seq<Job<L>>, c: seq<Job<L>>, d: seq<Job<L>>, id: TaskId)
    ensures Due(a + (b + (c + d)), id) == Due(a, id) + (Due(b, id) + (Due(c, id) + Due(d, id)))
  {
    DueAppend(a, b + (c + d), id);
    DueAppend(b, c + d, id);
    DueAppend(c, d, id);
  }

  lemma DueOfFirst<L>(job: Job<L>, back: seq<Job<L>>, id: TaskId)
    requires back == if job.prog.rest.Some? then [Job(job.id, job.prog.rest.value)] else []
    ensures Due([job], id) == (if id == job.id then [job.prog.tag] else []) + Due(back, id)
  {
    assert [job][1..] == [] && (back != [] ==> back[1..] == []);
  }

  /** The loop makes every task, initial or born on the way, execute just what its program
      says, in order. */
  lemma {:induction false} RunsWhatIsDue<L>(q: seq<Job<L>>, next: TaskId, id: TaskId)
    requires DistinctBelow(q, next)
    ensures var r := RunAll(q, next);
      Own(r.trace, id) == Due(q + Numbered(r.born, next), id)
    decreases SizeAll(Progs(q))
  {
    if q == [] {
      assert q + Numbered<L>([], next) == [];
    } else {
      RequeuedShrinks(q, next);
      RequeuedDistinct(q, next);
      RunsWhatIsDue(Requeued(q, next), next + |q[0].prog.spawns|, id);
      var r := RunAll(Requeued(q, next), next + |q[0].prog.spawns|);
      DueAfter(q, next, r.born, id);
      var t := RunAll(q, next).trace;
      assert t[0] == (q[0].id, q[0].prog.tag) && t[1..] == r.trace;
    }
  }

  /** Every slice of every task, initial or born on the way, runs exactly once and in
      program order, and no other task runs. */
  lemma EachTaskInOrder<L>(q: seq<Job<L>>, next: TaskId)
    requires DistinctBelow(q, next)
    ensures var r := RunAll(q, next);
      && (forall i :: 0 <= i < |q| ==> Own(r.trace, q[i].id) == Labels(q[i].prog))
      && (forall j :: 0 <= j < |r.born| ==> Own(r.trace, next + j) == Labels(r.born[j]))
      && (forall id: TaskId :: id >= next + |r.born| ==> Own(r.trace, id) == [])
  {
    var r := RunAll(q, next);
    var all := q + Numbered(r.born, next);
    forall i | 0 <= i < |all| ensures Own(r.trace, all[i].id) == Labels(all[i].prog) {
      RunsWhatIsDue(q, next, all[i].id);
      DueOne(all, i);
    }
    forall i | 0 <= i < |q| ensures Own(r.trace, q[i].id) == Labels(q[i].prog) {
      assert all[i] == q[i];
    }
    forall j | 0 <= j < |r.born| ensures Own(r.trace, next + j) == Labels(r.born[j]) {
      assert all[|q| + j] == Job(next + j, r.born[j]);
    }
    forall id: TaskId | id >= next + |r.born| ensures Own(r.trace, id) == [] {
      RunsWhatIsDue(q, next, id);
      DueNone(all, id);
    }
  }

  /** Nested spawns included, the slices executed are just those of the programs. */
  lemma {:induction false} AllSlicesRun<L>(q: seq<Job<L>>, next: TaskId)
    ensures AllOf(RunAll(q, next).trace) == SlicesOf(Progs(q))
    decreases SizeAll(Progs(q))
  {
    if q != [] {
      RequeuedShrinks(q, next);
      AllSlicesRun(Requeued(q, next), next + |q[0].prog.spawns|);
      var t := RunAll(q, next).trace;
      assert t[1..] == RunAll(Requeued(q, next), next + |q[0].prog.spawns|).trace;
    }
  }

  // ---- Round by round ------------------------------------------------------------------------

  /** Round `k`: the k-th slice of every task that has one, in queue order. */
  ghost function Round<L>(q: seq<Job<L>>, k: nat): Trace<L> {
    if q == [] then []
    else if k < |Labels(q[0].prog)| then [(q[0].id, Labels(q[0].prog)[k])] + Round(q[1..], k)
    else Round(q[1..], k)
  }

  /** What gathers behind a queue while its tasks have one turn each: for each in order, its
      children, numbered from `next` on, and then itself if it yielded. */
  ghost function Behind<L>(q: seq<Job<L>>, next: TaskId): seq<Job<L>> {
    if q == [] then []
    else
      var p := q[0].prog;
      Numbered(p.spawns, next) + Back(q[0]) + Behind(q[1..], next + |p.spawns|)
  }

  function Back<L>(job: Job<L>): seq<Job<L>> {
    if job.prog.rest.Some? then [Job(job.id, job.prog.rest.value)] else []
  }

  ghost function SpawnCount<L>(q: seq<Job<L>>): nat {
    if q == [] then 0 else |q[0].prog.spawns| + SpawnCount(q[1..])
  }

  /** The loop works through the tasks of a round, `a`, while what they spawn and those that
      survive it gather behind `b`. */
  lemma {:induction false} OneRound<L>(a: seq<Job<L>>, b: seq<Job<L>>, next: TaskId)
    ensures RunAll(a + b, next).trace == Round(a, 0) + RunAll(b + Behind(a, next), next + SpawnCount(a)).trace
  {
    if a == [] {
      assert a + b == b && b + Behind(a, next) == b;
    } else {
      var (p, after) := (a[0].prog, next + |a[0].prog.spawns|);
      var more := Numbered(p.spawns, next) + Back(a[0]);
      OneTurnOf(a, b, more, next);
      OneRound(a[1..], b + more, after);
      BehindNext(a, b, more, next);
      Cons((a[0].id, p.tag), Round(a[1..], 0), RunAll(b + Behind(a, next), next + SpawnCount(a)).trace);
    }
  }

  lemma Cons<L>(x: (TaskId, L), a: Trace<L>, b: Trace<L>)
    ensures [x] + (a + b) == ([x] + a) + b
  {
  }

  lemma BehindNext<L>(a: seq<Job<L>>, b: seq<Job<L>>, more: seq<Job<L>>, next: TaskId)
    requires a != [] && more == Numbered(a[0].prog.spawns, next) + Back(a[0])
    ensures (b + more) + Behind(a[1..], next + |a[0].prog.spawns|) == b + Behind(a, next)
    ensures Round(a, 0) == [(a[0].id, a[0].prog.tag)] + Round(a[1..], 0)
  {
    assert Behind(a, next) == more + Behind(a[1..], next + |a[0].prog.spawns|);
  }

  lemma OneTurnOf<L>(a: seq<Job<L>>, b: seq<Job<L>>, more: seq<Job<L>>, next: TaskId)
    requires a != [] && more == Numbered(a[0].prog.spawns, next) + Back(a[0])
    ensures RunAll(a + b, next).trace
         == [(a[0].id, a[0].prog.tag)] + RunAll(a[1..] + (b + more), next + |a[0].prog.spawns|).trace
  {
    assert (a + b)[0] == a[0] && (a + b)[1..] == a[1..] + b;
    assert Requeued(a + b, next) == a[1..] + (b + more);
  }

  /** Round robin, nested `go` included: each task of the queue has one turn, in order, and
      then the loop goes on with what gathered behind them. */
  lemma RoundByRound<L>(q: seq<Job<L>>, next: TaskId)
    ensures RunAll(q, next).trace == Round(q, 0) + RunAll(Behind(q, next), next + SpawnCount(q)).trace
  {
    OneRound(q, [], next);
    assert q + [] == q && [] + Behind(q, next) == Behind(q, next);
  }

  // ---- Without nested go ---------------------------------------------------------------------

  ghost predicate Flat<L>(p: Prog<L>) {
    p.spawns == [] && (p.rest.Some? ==> Flat(p.rest.value))
  }

  ghost predicate AllFlat<L>(q: seq<Job<L>>) {
    forall i :: 0 <= i < |q| ==> Flat(q[i].prog)
  }

  /** The rounds `k`, `k + 1`, ..., `n - 1` one after the other. */
  ghost function Rounds<L>(q: seq<Job<L>>, k: nat, n: nat): Trace<L>
    decreases n - k
  {
    if k >= n then [] else Round(q, k) + Rounds(q, k + 1, n)
  }

  /** The tasks that go on after their first slice. */
  ghost function Survivors<L>(q: seq<Job<L>>): seq<Job<L>> {
    if q == [] then []
    else if q[0].prog.rest.Some? then [Job(q[0].id, q[0].prog.rest.value)] + Survivors(q[1..])
    else Survivors(q[1..])
  }

  ghost function Longest<L>(q: seq<Job<L>>): nat {
    if q == [] then 0
    else
      var n, m := |Labels(q[0].prog)|, Longest(q[1..]);
      if n > m then n else m
  }

  lemma {:induction false} FlatBehind<L>(q: seq<Job<L>>, next: TaskId)
    requires AllFlat(q)
    ensures Behind(q, next) == Survivors(q) && SpawnCount(q) == 0
  {
    if q != [] {
      assert Numbered(q[0].prog.spawns, next) == [];
      FlatBehind(q[1..], next);
    }
  }

  lemma {:induction false} SurvivorsShift<L>(q: seq<Job<L>>, k: nat)
    requires AllFlat(q)
    ensures AllFlat(Survivors(q)) && Round(Survivors(q), k) == Round(q, k + 1)
    ensures Longest(Survivors(q)) == if Longest(q) == 0 then 0 else Longest(q) - 1
    ensures q != [] ==> Longest(q) >= 1
  {
    if q != [] {
      SurvivorsShift(q[1..], k);
      var s := Survivors(q);
      if q[0].prog.rest.Some? {
        assert s[0] == Job(q[0].id, q[0].prog.rest.value) && s[1..] == Survivors(q[1..]);
      } else {
        assert s == Survivors(q[1..]);
      }
    }
  }

  lemma {:induction false} RoundsShift<L>(q: seq<Job<L>>, k: nat, n: nat)
    requires AllFlat(q)
    ensures Rounds(Survivors(q), k, n) == Rounds(q, k + 1, n + 1)
    decreases n - k
  {
    SurvivorsShift(q, k);
    if k < n {
      RoundsShift(q, k + 1, n);
    }
  }

  /** Without nested `go` the trace is the transposition of the tasks' slices: first the
      first slice of each task, then the second of each that has one, and so on. */
  lemma {:induction false} TraceIsTransposition<L>(q: seq<Job<L>>, next: TaskId)
    requires AllFlat(q)
    ensures RunAll(q, next).trace == Rounds(q, 0, Longest(q))
    decreases Longest(q)
  {
    SurvivorsShift(q, 0);
    if q != [] {
      RoundByRound(q, next);
      FlatBehind(q, next);
      TraceIsTransposition(Survivors(q), next);
      RoundsShift(q, 0, Longest(q) - 1);
    }
  }
}
