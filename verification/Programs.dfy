/** Finite task programs: what a task does between two switches to the scheduler is a
    slice.  Shared by the N:1 and the simple M:N runtime, whose tasks never park. */
module Programs {
  import opened Common

  /** A slice with its tag and the programs it hands to `go`, in order; then either
      `gosched` and the rest, or the end of the task. */
  datatype Prog<L> = Prog(tag: L, spawns: seq<Prog<L>>, rest: Option<Prog<L>>)

  datatype Job<L> = Job(id: TaskId, prog: Prog<L>)

  /** The tags of a task's own slices, in program order. */
  function Labels<L>(p: Prog<L>): (ls: seq<L>)
    ensures ls != []
  {
    [p.tag] + if p.rest.Some? then Labels(p.rest.value) else []
  }

  /** How many slices a program comes to, with everything it spawns. */
  ghost function Size<L>(p: Prog<L>): (n: nat)
    ensures n >= 1
    decreases p, 1
  {
    1 + SizeAll(p.spawns) + if p.rest.Some? then Size(p.rest.value) else 0
  }

  ghost function SizeAll<L>(ps: seq<Prog<L>>): nat
    decreases ps, 0
  {
    if ps == [] then 0 else Size(ps[0]) + SizeAll(ps[1..])
  }

  /** All slices of a program and of everything it spawns. */
  ghost function AllSlices<L>(p: Prog<L>): multiset<L>
    decreases p, 1
  {
    multiset{p.tag} + SlicesOf(p.spawns) + if p.rest.Some? then AllSlices(p.rest.value) else multiset{}
  }

  ghost function SlicesOf<L>(ps: seq<Prog<L>>): multiset<L>
    decreases ps, 0
  {
    if ps == [] then multiset{} else AllSlices(ps[0]) + SlicesOf(ps[1..])
  }

  /** The programs of jobs. */
  function Progs<L>(q: seq<Job<L>>): seq<Prog<L>> {
    seq(|q|, i requires 0 <= i < |q| => q[i].prog)
  }

  /** Programs handed to `go`, numbered from `next`. */
  function Numbered<L>(ps: seq<Prog<L>>, next: TaskId): seq<Job<L>> {
    seq(|ps|, i requires 0 <= i < |ps| => Job(next + i, ps[i]))
  }

  lemma {:induction false} SizeAppend<L>(a: seq<Prog<L>>, b: seq<Prog<L>>)
    ensures SizeAll(a + b) == SizeAll(a) + SizeAll(b)
    ensures SlicesOf(a + b) == SlicesOf(a) + SlicesOf(b)
  {
    if a == [] {
      assert a + b == b;
    } else {
      assert (a + b)[1..] == a[1..] + b;
      SizeAppend(a[1..], b);
    }
  }

  /** Executed slices, with the task that executed them. */
  type Trace<L> = seq<(TaskId, L)>

  /** The slices task `id` executed. */
  ghost function Own<L>(t: Trace<L>, id: TaskId): seq<L> {
    if t == [] then []
    else if t[0].0 == id then [t[0].1] + Own(t[1..], id)
    else Own(t[1..], id)
  }

  ghost function AllOf<L>(t: Trace<L>): multiset<L> {
    if t == [] then multiset{} else multiset{t[0].1} + AllOf(t[1..])
  }

  lemma {:induction false} OwnAppend<L>(a: Trace<L>, b: Trace<L>, id: TaskId)
    ensures Own(a + b, id) == Own(a, id) + Own(b, id)
  {
    if a == [] {
      assert a + b == b;
    } else {
      assert (a + b)[0] == a[0] && (a + b)[1..] == a[1..] + b;
      OwnAppend(a[1..], b, id);
    }
  }

  lemma OwnPush<L>(t: Trace<L>, who: TaskId, tag: L, id: TaskId)
    ensures Own(t + [(who, tag)], id) == if id == who then Own(t, id) + [tag] else Own(t, id)
  {
    var last := [(who, tag)];
    OwnAppend(t, last, id);
    assert last[1..] == [];
    assert Own(last, id) == if id == who then [tag] else [];
  }

  lemma {:induction false} AllOfPush<L>(t: Trace<L>, x: (TaskId, L))
    ensures AllOf(t + [x]) == AllOf(t) + multiset{x.1}
  {
    if t == [] {
      assert [x][1..] == [] && t + [x] == [x];
    } else {
      assert (t + [x])[0] == t[0] && (t + [x])[1..] == t[1..] + [x];
      AllOfPush(t[1..], x);
    }
  }

  /** What the jobs of a queue make task `id` execute. */
  ghost function Due<L>(q: seq<Job<L>>, id: TaskId): seq<L> {
    if q == [] then []
    else if q[0].id == id then Labels(q[0].prog) + Due(q[1..], id)
    else Due(q[1..], id)
  }

  lemma {:induction false} DueAppend<L>(a: seq<Job<L>>, b: seq<Job<L>>, id: TaskId)
    ensures Due(a + b, id) == Due(a, id) + Due(b, id)
  {
    if a == [] {
      assert a + b == b;
    } else {
      assert (a + b)[0] == a[0] && (a + b)[1..] == a[1..] + b;
      DueAppend(a[1..], b, id);
    }
  }

  lemma {:induction false} DueNone<L>(q: seq<Job<L>>, id: TaskId)
    requires forall i :: 0 <= i < |q| ==> q[i].id != id
    ensures Due(q, id) == []
  {
    if q != [] {
      DueNone(q[1..], id);
    }
  }

  /** With one job per task, that is just the job's program. */
  lemma DueOne<L>(q: seq<Job<L>>, i: nat)
    requires i < |q| && forall j :: 0 <= j < |q| && j != i ==> q[j].id != q[i].id
    ensures Due(q, q[i].id) == Labels(q[i].prog)
  {
    var id := q[i].id;
    assert q == q[..i] + ([q[i]] + q[i + 1..]);
    DueAppend(q[..i], [q[i]] + q[i + 1..], id);
    DueAppend([q[i]], q[i + 1..], id);
    DueNone(q[..i], id);
    DueNone(q[i + 1..], id);
    assert [q[i]][1..] == [];
  }
}
