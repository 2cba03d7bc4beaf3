/** The M:N runtime of multi.rs: workers share one queue and leave when they see it empty.

    Each `go`, pop and push is one action (one locked section), and the workers' actions
    interleave freely. */
module Multi {
  import opened Common
  import opened Programs

  datatype Worker<L> =
    | Ready                                   // about to look at the queue
    | Busy(job: Job<L>, spawned: nat)         // in a slice, after that many `go`s
    | Yielded(job: Job<L>)                    // switched back, about to requeue the job
    | Left

  datatype Place = InQueue | OnWorker(w: nat) | Finished

  datatype State<L> = State(
    tasks: seq<Job<L>>,
    ws: seq<Worker<L>>,
    // history: the slices executed, and of each task created its program and its place
    trace: Trace<L>,
    born: seq<Prog<L>>,
    place: seq<Place>
  )

  datatype Action = Take(w: nat) | Leave(w: nat) | Go(w: nat) | EndSlice(w: nat) | Requeue(w: nat)

  /** The tasks created before start, and `m` workers. */
  function Init<L>(progs: seq<Prog<L>>, m: nat): State<L> {
    State(Numbered(progs, 0), seq(m, i => Ready), [], progs, seq(|progs|, i => InQueue))
  }

  predicate Enabled<L(==)>(s: State<L>, a: Action) {
    a.w < |s.ws| &&
    match a
    case Take(w) => s.ws[w].Ready? && s.tasks != []
    case Leave(w) => s.ws[w].Ready? && s.tasks == []
    case Go(w) => s.ws[w].Busy? && s.ws[w].spawned < |s.ws[w].job.prog.spawns|
    case EndSlice(w) => s.ws[w].Busy? && s.ws[w].spawned == |s.ws[w].job.prog.spawns|
    case Requeue(w) => s.ws[w].Yielded?
  }

  /** The task that a worker carries to another place. */
  function Moved<L>(s: State<L>, id: TaskId, p: Place): seq<Place> {
    if id < |s.place| then s.place[id := p] else s.place
  }

  function Apply<L(==)>(s: State<L>, a: Action): State<L>
    requires Enabled(s, a)
  {
    match a
    case Take(w) =>
      s.(tasks := s.tasks[1..], ws := s.ws[w := Busy(s.tasks[0], 0)],
         place := Moved(s, s.tasks[0].id, OnWorker(w)))
    case Leave(w) => s.(ws := s.ws[w := Left])
    case Go(w) =>
      var Busy(job, i) := s.ws[w];
      s.(tasks := s.tasks + [Job(|s.born|, job.prog.spawns[i])], born := s.born + [job.prog.spawns[i]],
         place := s.place + [InQueue], ws := s.ws[w := Busy(job, i + 1)])
    case EndSlice(w) =>
      var Job(id, p) := s.ws[w].job;
      if p.rest.Some?
      then s.(trace := s.trace + [(id, p.tag)], ws := s.ws[w := Yielded(Job(id, p.rest.value))])
      else s.(trace := s.trace + [(id, p.tag)], ws := s.ws[w := Ready], place := Moved(s, id, Finished))
    case Requeue(w) =>
      s.(tasks := s.tasks + [s.ws[w].job], ws := s.ws[w := Ready], place := Moved(s, s.ws[w].job.id, InQueue))
  }

  /** The shared queue and the workers' slots.  Each method is one action of one worker: a
      locked section of the loop or of `go`, or the switch back from a task. */
  class Pool<L(==)> {
    var tasks: seq<Job<L>>
    var ws: seq<Worker<L>>
    var next: TaskId
    ghost var trace: Trace<L>
    ghost var born: seq<Prog<L>>
    ghost var place: seq<Place>

    ghost predicate Valid()
      reads this
    {
      next == |born| == |place|
    }

    ghost function Model(): State<L>
      reads this
    {
      State(tasks, ws, trace, born, place)
    }

    constructor (m: nat)
      ensures Valid() && Model() == Init([], m)
    {
      tasks, next, ws := [], 0, seq(m, i => Ready);
      trace, born, place := [], [], [];
    }

    /** `go` before `start_runtime`. */
    method Register(p: Prog<L>)
      requires Valid()
      modifies this
      ensures Valid()
      ensures forall progs, m :: old(Model()) == Init(progs, m) ==> Model() == Init(progs + [p], m)
    {
      tasks := tasks + [Job(next, p)];
      next, born, place := next + 1, born + [p], place + [InQueue];
    }

    /** The top of the loop. */
    method Pop(w: nat)
      requires Valid() && w < |ws| && ws[w].Ready?
      modifies this
      ensures Valid()
      ensures Model() == Apply(old(Model()), if old(tasks) == [] then Leave(w) else Take(w))
    {
      if tasks == [] {
        ws := ws[w := Left];
      } else {
        place := Moved(Model(), tasks[0].id, OnWorker(w));
        ws := ws[w := Busy(tasks[0], 0)];
        tasks := tasks[1..];
      }
    }

    /** The task of worker `w` calls `go`. */
    method Spawn(w: nat)
      requires Valid() && w < |ws| && ws[w].Busy? && ws[w].spawned < |ws[w].job.prog.spawns|
      modifies this
      ensures Valid() && Model() == Apply(old(Model()), Go(w))
    {
      var Busy(job, i) := ws[w];
      tasks := tasks + [Job(next, job.prog.spawns[i])];
      next, born, place := next + 1, born + [job.prog.spawns[i]], place + [InQueue];
      ws := ws[w := Busy(job, i + 1)];
    }

    /** It yields or ends. */
    method SwitchBack(w: nat)
      requires Valid() && w < |ws| && ws[w].Busy? && ws[w].spawned == |ws[w].job.prog.spawns|
      modifies this
      ensures Valid() && Model() == Apply(old(Model()), EndSlice(w))
    {
      var Job(id, p) := ws[w].job;
      trace := trace + [(id, p.tag)];
      if p.rest.Some? {
        ws := ws[w := Yielded(Job(id, p.rest.value))];
      } else {
        place := Moved(Model(), id, Finished);
        ws := ws[w := Ready];
      }
    }

    /** A task that yielded goes to the back of the queue. */
    method PutBack(w: nat)
      requires Valid() && w < |ws| && ws[w].Yielded?
      modifies this
      ensures Valid() && Model() == Apply(old(Model()), Action.Requeue(w))
    {
      place := Moved(Model(), ws[w].job.id, InQueue);
      tasks := tasks + [ws[w].job];
      ws := ws[w := Ready];
    }
  }

  ghost predicate Run<L>(s: State<L>, acts: seq<Action>)
    decreases |acts|, 0
  {
    acts == [] ||
    (var k := |acts| - 1; Run(s, acts[..k]) && Enabled(Exec(s, acts[..k]), acts[k]))
  }

  ghost function Exec<L>(s: State<L>, acts: seq<Action>): State<L>
    requires Run(s, acts)
    decreases |acts|, 1
  {
    if acts == [] then s else Apply(Exec(s, acts[..|acts| - 1]), acts[|acts| - 1])
  }

  // ---- Every step is paid for ----------------------------------------------------------------

  /** The steps that a worker's present job, and what it still spawns, will take. */
  ghost function Load<L>(w: Worker<L>): int {
    match w
    case Left => 0
    case Ready => 1
    case Busy(job, i) =>
      3 * Size(job.prog) - 1 - if i <= |job.prog.spawns| then 3 * SizeAll(job.prog.spawns[..i]) else 0
    case Yielded(job) => 3 * Size(job.prog) + 1
  }

  ghost function Loads<L>(ws: seq<Worker<L>>): int {
    if ws == [] then 0 else Loads(ws[..|ws| - 1]) + Load(ws[|ws| - 1])
  }

  /** The number of steps a state is away from the end. */
  ghost function StepsLeft<L>(s: State<L>): int {
    3 * SizeAll(Progs(s.tasks)) - |s.tasks| + Loads(s.ws)
  }

  lemma {:induction false} LoadsUpdate<L>(ws: seq<Worker<L>>, w: nat, x: Worker<L>)
    requires w < |ws|
    ensures Loads(ws[w := x]) == Loads(ws) - Load(ws[w]) + Load(x)
  {
    var n := |ws| - 1;
    if w == n {
      assert ws[w := x][..n] == ws[..n];
    } else {
      assert ws[w := x][..n] == ws[..n][w := x];
      LoadsUpdate(ws[..n], w, x);
    }
  }

  lemma {:induction false} LoadsReady<L>(ws: seq<Worker<L>>)
    requires forall w :: 0 <= w < |ws| ==> ws[w].Ready?
    ensures Loads(ws) == |ws|
  {
    if ws != [] {
      LoadsReady(ws[..|ws| - 1]);
    }
  }

  lemma {:induction false} SizeAtLeast<L>(ps: seq<Prog<L>>)
    ensures SizeAll(ps) >= |ps|
  {
    if ps != [] {
      SizeAtLeast(ps[1..]);
    }
  }

  lemma SizePush<L>(tasks: seq<Job<L>>, job: Job<L>)
    ensures SizeAll(Progs(tasks + [job])) == SizeAll(Progs(tasks)) + Size(job.prog)
  {
    assert Progs(tasks + [job]) == Progs(tasks) + [job.prog];
    SizeAppend(Progs(tasks), [job.prog]);
    assert [job.prog][1..] == [];
  }

  lemma SizePop<L>(tasks: seq<Job<L>>)
    requires tasks != []
    ensures SizeAll(Progs(tasks)) == Size(tasks[0].prog) + SizeAll(Progs(tasks[1..]))
  {
    assert Progs(tasks)[1..] == Progs(tasks[1..]);
  }

  lemma SizeSpawn<L>(ps: seq<Prog<L>>, i: nat)
    requires i < |ps|
    ensures SizeAll(ps[..i + 1]) == SizeAll(ps[..i]) + Size(ps[i])
  {
    assert ps[..i + 1] == ps[..i] + [ps[i]];
    SizeAppend(ps[..i], [ps[i]]);
    assert [ps[i]][1..] == [];
  }

  /** Every step, whoever takes it, brings the end one step nearer. */
  lemma EveryStepCounts<L>(s: State<L>, a: Action)
    requires Enabled(s, a)
    ensures StepsLeft(Apply(s, a)) == StepsLeft(s) - 1
  {
    LoadsUpdate(s.ws, a.w, Apply(s, a).ws[a.w]);
    match a
    case Take(w) => SizePop(s.tasks); LoadAtStart(s.tasks[0]);
    case Leave(w) =>
    case Go(w) => SizePush(s.tasks, Job(|s.born|, s.ws[w].job.prog.spawns[s.ws[w].spawned])); LoadOfGo(s.ws[w]);
    case EndSlice(w) => LoadAtEnd(s.ws[w]);
    case Requeue(w) => SizePush(s.tasks, s.ws[w].job);
  }

  lemma LoadAtStart<L>(job: Job<L>)
    ensures Load(Busy(job, 0)) == 3 * Size(job.prog) - 1
  {
    assert job.prog.spawns[..0] == [];
  }

  lemma LoadOfGo<L>(w: Worker<L>)
    requires w.Busy? && w.spawned < |w.job.prog.spawns|
    ensures Load(Busy(w.job, w.spawned + 1)) == Load(w) - 3 * Size(w.job.prog.spawns[w.spawned])
  {
    SizeSpawn(w.job.prog.spawns, w.spawned);
  }

  lemma LoadAtEnd<L>(w: Worker<L>)
    requires w.Busy? && w.spawned == |w.job.prog.spawns|
    ensures Load(w) == 2 + if w.job.prog.rest.Some? then 3 * Size(w.job.prog.rest.value) else 0
  {
    assert w.job.prog.spawns[..|w.job.prog.spawns|] == w.job.prog.spawns;
  }

  lemma {:induction false} RunCounts<L>(s: State<L>, acts: seq<Action>)
    requires Run(s, acts)
    ensures StepsLeft(Exec(s, acts)) == StepsLeft(s) - |acts|
  {
    if acts != [] {
      var k := |acts| - 1;
      RunCounts(s, acts[..k]);
      EveryStepCounts(Exec(s, acts[..k]), acts[k]);
    }
  }

  // ---- Each task's slices, exactly once and in order ------------------------------------------

  predicate Holds<L>(w: Worker<L>) {
    w.Busy? || w.Yielded?
  }

  /** What task `job.id` executed and what `job` still says make up its program. */
  ghost predicate Owes<L>(s: State<L>, job: Job<L>) {
    job.id < |s.born| && Own(s.trace, job.id) + Labels(job.prog) == Labels(s.born[job.id])
  }

  ghost predicate QueueOk<L>(s: State<L>)
    requires |s.place| == |s.born|
  {
    && (forall i, j :: 0 <= i < j < |s.tasks| ==> s.tasks[i].id != s.tasks[j].id)
    && (forall i :: 0 <= i < |s.tasks| ==> Owes(s, s.tasks[i]) && s.place[s.tasks[i].id] == InQueue)
  }

  ghost predicate WorkersOk<L>(s: State<L>)
    requires |s.place| == |s.born|
  {
    forall w: nat :: w < |s.ws| && Holds(s.ws[w]) ==>
      && Owes(s, s.ws[w].job) && s.place[s.ws[w].job.id] == OnWorker(w)
      && (s.ws[w].Busy? ==> s.ws[w].spawned <= |s.ws[w].job.prog.spawns|)
  }

  predicate Queued<L>(tasks: seq<Job<L>>, id: TaskId) {
    exists i :: 0 <= i < |tasks| && tasks[i].id == id
  }

  /** A task is where `place` says, and a finished one has executed its whole program. */
  ghost predicate PlaceOk<L>(s: State<L>, id: TaskId)
    requires id < |s.place| == |s.born|
  {
    match s.place[id]
    case InQueue => Queued(s.tasks, id)
    case OnWorker(w) => w < |s.ws| && Holds(s.ws[w]) && s.ws[w].job.id == id
    case Finished => Own(s.trace, id) == Labels(s.born[id])
  }

  ghost predicate Inv<L>(s: State<L>) {
    && |s.place| == |s.born|
    && QueueOk(s) && WorkersOk(s)
    && (forall id: TaskId :: id < |s.born| ==> PlaceOk(s, id))
    && (forall id: TaskId :: id >= |s.born| ==> Own(s.trace, id) == [])
    && (s.tasks != [] ==> exists w :: 0 <= w < |s.ws| && !s.ws[w].Left?)
  }

  lemma InitInv<L>(progs: seq<Prog<L>>, m: nat)
    requires m >= 1
    ensures Inv(Init(progs, m))
  {
    var s := Init(progs, m);
    assert !s.ws[0].Left?;
    forall id: TaskId | id < |s.born| ensures PlaceOk(s, id) {
      assert s.tasks[id].id == id;
    }
  }

  /** A slice is one label of its task's program, and none of another's. */
  lemma SliceDone<L>(trace: Trace<L>, job: Job<L>, whole: seq<L>)
    requires Own(trace, job.id) + Labels(job.prog) == whole
    ensures var (t, p) := (trace + [(job.id, job.prog.tag)], job.prog);
      && (if p.rest.Some? then Own(t, job.id) + Labels(p.rest.value) == whole else Own(t, job.id) == whole)
      && (forall id: TaskId :: id != job.id ==> Own(t, id) == Own(trace, id))
  {
    forall id: TaskId
      ensures Own(trace + [(job.id, job.prog.tag)], id)
           == if id == job.id then Own(trace, id) + [job.prog.tag] else Own(trace, id)
    {
      OwnPush(trace, job.id, job.prog.tag, id);
    }
    if job.prog.rest.Some? {
      Shift(Own(trace, job.id), job.prog.tag, Labels(job.prog.rest.value));
    } else {
      assert Labels(job.prog) == [job.prog.tag];
    }
  }

  lemma Shift<L>(a: seq<L>, x: L, b: seq<L>)
    ensures (a + [x]) + b == a + ([x] + b)
  {
  }

  lemma TakeKeepsInv<L>(s: State<L>, w: nat)
    requires Inv(s) && Enabled(s, Take(w))
    ensures Inv(Apply(s, Take(w)))
  {
    var t := Apply(s, Take(w));
    assert !t.ws[w].Left?;
    forall id: TaskId | id < |t.born| ensures PlaceOk(t, id) {
      assert PlaceOk(s, id);
      if t.place[id].InQueue? {
        var i :| 0 <= i < |s.tasks| && s.tasks[i].id == id;
        assert t.tasks[i - 1].id == id;
      }
    }
  }

  lemma LeaveKeepsInv<L>(s: State<L>, w: nat)
    requires Inv(s) && Enabled(s, Leave(w))
    ensures Inv(Apply(s, Leave(w)))
  {
    var t := Apply(s, Leave(w));
    forall id: TaskId | id < |t.born| ensures PlaceOk(t, id) {
      assert PlaceOk(s, id);
    }
  }

  lemma QueuedStays<L>(tasks: seq<Job<L>>, job: Job<L>, id: TaskId)
    ensures Queued(tasks + [job], id) <==> Queued(tasks, id) || job.id == id
  {
    if Queued(tasks, id) {
      var i :| 0 <= i < |tasks| && tasks[i].id == id;
      assert (tasks + [job])[i].id == id;
    }
    assert (tasks + [job])[|tasks|] == job;
  }

  lemma GoKeepsInv<L>(s: State<L>, w: nat)
    requires Inv(s) && Enabled(s, Go(w))
    ensures Inv(Apply(s, Go(w)))
  {
    var t := Apply(s, Go(w));
    assert !t.ws[w].Left?;
    forall id: TaskId | id < |t.born| ensures PlaceOk(t, id) {
      QueuedStays(s.tasks, t.tasks[|s.tasks|], id);
      if id < |s.born| {
        assert PlaceOk(s, id);
      }
    }
  }

  lemma EndSliceKeepsInv<L>(s: State<L>, w: nat)
    requires Inv(s) && Enabled(s, EndSlice(w))
    ensures Inv(Apply(s, EndSlice(w)))
  {
    var Job(me, p) := s.ws[w].job;
    var t := Apply(s, EndSlice(w));
    assert !t.ws[w].Left?;
    SliceDone(s.trace, s.ws[w].job, Labels(s.born[me]));
    OthersKeepTheirs(s, t, w, me);
    forall id: TaskId | id < |t.born| ensures PlaceOk(t, id) {
      assert PlaceOk(s, id);
    }
  }

  /** A slice of task `me` leaves what the others executed, and so what they owe. */
  lemma OthersKeepTheirs<L>(s: State<L>, t: State<L>, w: nat, me: TaskId)
    requires |s.place| == |s.born| && QueueOk(s) && WorkersOk(s)
    requires w < |s.ws| && Holds(s.ws[w]) && s.ws[w].job.id == me
    requires t.tasks == s.tasks && t.born == s.born && |t.place| == |s.place| && |t.ws| == |s.ws|
    requires forall v :: 0 <= v < |s.ws| && v != w ==> t.ws[v] == s.ws[v]
    requires forall id: TaskId :: id != me ==> Own(t.trace, id) == Own(s.trace, id)
    requires forall id: TaskId :: id < |s.place| && id != me ==> t.place[id] == s.place[id]
    ensures QueueOk(t)
    ensures forall v: nat :: v < |t.ws| && v != w && Holds(t.ws[v]) ==>
      && t.ws[v].job.id != me && Owes(t, t.ws[v].job) && t.place[t.ws[v].job.id] == OnWorker(v)
  {
    forall i | 0 <= i < |t.tasks| ensures Owes(t, t.tasks[i]) && t.place[t.tasks[i].id] == InQueue {
      assert s.place[me] == OnWorker(w) && Owes(s, s.tasks[i]);
    }
    forall v: nat | v < |t.ws| && v != w && Holds(t.ws[v])
      ensures t.ws[v].job.id != me && Owes(t, t.ws[v].job) && t.place[t.ws[v].job.id] == OnWorker(v)
    {
      assert s.place[me] == OnWorker(w) && Owes(s, s.ws[v].job);
    }
  }

  lemma RequeueKeepsInv<L>(s: State<L>, w: nat)
    requires Inv(s) && Enabled(s, Requeue(w))
    ensures Inv(Apply(s, Requeue(w)))
  {
    var t := Apply(s, Requeue(w));
    assert !t.ws[w].Left?;
    forall id: TaskId | id < |t.born| ensures PlaceOk(t, id) {
      QueuedStays(s.tasks, s.ws[w].job, id);
      assert PlaceOk(s, id);
    }
  }

  lemma {:induction false} RunKeepsInv<L>(s: State<L>, acts: seq<Action>)
    requires Inv(s) && Run(s, acts)
    ensures Inv(Exec(s, acts)) && |Exec(s, acts).ws| == |s.ws|
  {
    if acts != [] {
      var k := |acts| - 1;
      RunKeepsInv(s, acts[..k]);
      var r := Exec(s, acts[..k]);
      match acts[k]
      case Take(w) => TakeKeepsInv(r, w);
      case Leave(w) => LeaveKeepsInv(r, w);
      case Go(w) => GoKeepsInv(r, w);
      case EndSlice(w) => EndSliceKeepsInv(r, w);
      case Requeue(w) => RequeueKeepsInv(r, w);
    }
  }

  // ---- No slice is lost, doubled or made up ------------------------------------------------------

  /** The slices, nested spawns included, that a worker's job still stands for. */
  ghost function Pending<L>(w: Worker<L>): multiset<L> {
    match w
    case Busy(job, i) =>
      multiset{job.prog.tag} + SlicesOf(if i <= |job.prog.spawns| then job.prog.spawns[i..] else [])
      + if job.prog.rest.Some? then AllSlices(job.prog.rest.value) else multiset{}
    case Yielded(job) => AllSlices(job.prog)
    case _ => multiset{}
  }

  ghost function PendingAll<L>(ws: seq<Worker<L>>): multiset<L> {
    if ws == [] then multiset{} else PendingAll(ws[..|ws| - 1]) + Pending(ws[|ws| - 1])
  }

  lemma {:induction false} PendingUpdate<L>(ws: seq<Worker<L>>, w: nat, x: Worker<L>)
    requires w < |ws|
    ensures PendingAll(ws[w := x]) + Pending(ws[w]) == PendingAll(ws) + Pending(x)
  {
    var n := |ws| - 1;
    if w == n {
      assert ws[w := x][..n] == ws[..n];
      Exchange(PendingAll(ws[..n]), Pending(x), Pending(ws[n]));
    } else {
      assert ws[w := x][..n] == ws[..n][w := x];
      PendingUpdate(ws[..n], w, x);
      Beside(PendingAll(ws[..n][w := x]), Pending(ws[n]), Pending(ws[w]), PendingAll(ws[..n]), Pending(x));
    }
  }

  lemma Exchange<L>(a: multiset<L>, b: multiset<L>, c: multiset<L>)
    ensures (a + b) + c == (a + c) + b
  {
  }

  lemma Beside<L>(a: multiset<L>, z: multiset<L>, p: multiset<L>, b: multiset<L>, q: multiset<L>)
    requires a + p == b + q
    ensures (a + z) + p == (b + z) + q
  {
    forall x ensures ((a + z) + p)[x] == ((b + z) + q)[x] {
      assert (a + p)[x] == (b + q)[x];
    }
  }

  /** Executed, queued and pending slices balance when those of one worker do. */
  lemma Balance<L>(
    t: multiset<L>, q: multiset<L>, p: multiset<L>, mine: multiset<L>,
    t': multiset<L>, q': multiset<L>, p': multiset<L>, mine': multiset<L>)
    requires p' + mine == p + mine' && t' + q' + mine' == t + q + mine
    ensures t' + q' + p' == t + q + p
  {
    forall x ensures (t' + q' + p')[x] == (t + q + p)[x] {
      assert (p' + mine)[x] == (p + mine')[x] && (t' + q' + mine')[x] == (t + q + mine)[x];
    }
  }

  lemma {:induction false} NothingPending<L>(ws: seq<Worker<L>>)
    requires forall w :: 0 <= w < |ws| ==> ws[w].Ready? || ws[w].Left?
    ensures PendingAll(ws) == multiset{}
  {
    if ws != [] {
      NothingPending(ws[..|ws| - 1]);
    }
  }

  /** The slices executed and those still to execute. */
  ghost function Slices<L>(s: State<L>): multiset<L> {
    AllOf(s.trace) + SlicesOf(Progs(s.tasks)) + PendingAll(s.ws)
  }

  lemma SlicesPush<L>(tasks: seq<Job<L>>, job: Job<L>)
    ensures SlicesOf(Progs(tasks + [job])) == SlicesOf(Progs(tasks)) + AllSlices(job.prog)
  {
    assert Progs(tasks + [job]) == Progs(tasks) + [job.prog];
    SizeAppend(Progs(tasks), [job.prog]);
    assert [job.prog][1..] == [];
  }

  lemma SlicesPop<L>(tasks: seq<Job<L>>)
    requires tasks != []
    ensures SlicesOf(Progs(tasks)) == AllSlices(tasks[0].prog) + SlicesOf(Progs(tasks[1..]))
  {
    assert Progs(tasks)[1..] == Progs(tasks[1..]);
  }

  lemma PendingAtStart<L>(job: Job<L>)
    ensures Pending(Busy(job, 0)) == AllSlices(job.prog)
  {
    assert job.prog.spawns[0..] == job.prog.spawns;
  }

  lemma PendingAfterGo<L>(job: Job<L>, i: nat)
    requires i < |job.prog.spawns|
    ensures Pending(Busy(job, i)) == Pending(Busy(job, i + 1)) + AllSlices(job.prog.spawns[i])
  {
    assert job.prog.spawns[i..][1..] == job.prog.spawns[i + 1..];
  }

  /** Every step keeps them all. */
  lemma StepKeepsSlices<L>(s: State<L>, a: Action)
    requires Enabled(s, a)
    ensures Slices(Apply(s, a)) == Slices(s)
  {
    var s' := Apply(s, a);
    PendingUpdate(s.ws, a.w, s'.ws[a.w]);
    WorkerBalances(s, a);
    Balance(AllOf(s.trace), SlicesOf(Progs(s.tasks)), PendingAll(s.ws), Pending(s.ws[a.w]),
            AllOf(s'.trace), SlicesOf(Progs(s'.tasks)), PendingAll(s'.ws), Pending(s'.ws[a.w]));
  }

  ghost predicate Balanced<L>(s: State<L>, s': State<L>, w: nat) {
    && w < |s.ws| == |s'.ws|
    && AllOf(s'.trace) + SlicesOf(Progs(s'.tasks)) + Pending(s'.ws[w])
       == AllOf(s.trace) + SlicesOf(Progs(s.tasks)) + Pending(s.ws[w])
  }

  lemma TakeBalances<L>(s: State<L>, w: nat)
    requires Enabled(s, Take(w))
    ensures Balanced(s, Apply(s, Take(w)), w)
  {
    SlicesPop(s.tasks);
    PendingAtStart(s.tasks[0]);
    assert Pending(s.ws[w]) == multiset{};
    MovesOut(AllOf(s.trace), SlicesOf(Progs(s.tasks[1..])), AllSlices(s.tasks[0].prog));
  }

  lemma GoBalances<L>(s: State<L>, w: nat)
    requires Enabled(s, Go(w))
    ensures Balanced(s, Apply(s, Go(w)), w)
  {
    var Busy(job, i) := s.ws[w];
    SlicesPush(s.tasks, Job(|s.born|, job.prog.spawns[i]));
    PendingAfterGo(job, i);
    MovesIn(AllOf(s.trace), SlicesOf(Progs(s.tasks)), Pending(Busy(job, i + 1)), AllSlices(job.prog.spawns[i]));
  }

  lemma EndSliceBalances<L>(s: State<L>, w: nat)
    requires Enabled(s, EndSlice(w))
    ensures Balanced(s, Apply(s, EndSlice(w)), w)
  {
    var s' := Apply(s, EndSlice(w));
    var job := s.ws[w].job;
    AllOfPush(s.trace, (job.id, job.prog.tag));
    PendingAtEnd(job);
    assert s.ws[w] == Busy(job, |job.prog.spawns|);
    assert Pending(s'.ws[w]) == if job.prog.rest.Some? then AllSlices(job.prog.rest.value) else multiset{};
    Executes(AllOf(s.trace), SlicesOf(Progs(s.tasks)), job.prog.tag, Pending(s'.ws[w]));
  }

  lemma RequeueBalances<L>(s: State<L>, w: nat)
    requires Enabled(s, Action.Requeue(w))
    ensures Balanced(s, Apply(s, Action.Requeue(w)), w)
  {
    SlicesPush(s.tasks, s.ws[w].job);
    assert Pending(s.ws[w]) == AllSlices(s.ws[w].job.prog);
    ComesBack(AllOf(s.trace), SlicesOf(Progs(s.tasks)), AllSlices(s.ws[w].job.prog));
  }

  lemma WorkerBalances<L>(s: State<L>, a: Action)
    requires Enabled(s, a)
    ensures Balanced(s, Apply(s, a), a.w)
  {
    match a
    case Take(w) => TakeBalances(s, w);
    case Leave(w) =>
    case Go(w) => GoBalances(s, w);
    case EndSlice(w) => EndSliceBalances(s, w);
    case Requeue(w) => RequeueBalances(s, w);
  }

  lemma PendingAtEnd<L>(job: Job<L>)
    ensures Pending(Busy(job, |job.prog.spawns|))
         == multiset{job.prog.tag} + if job.prog.rest.Some? then AllSlices(job.prog.rest.value) else multiset{}
  {
    assert job.prog.spawns[|job.prog.spawns|..] == [];
  }

  lemma MovesOut<L>(t: multiset<L>, q: multiset<L>, a: multiset<L>)
    ensures t + q + a == t + (a + q) + multiset{}
  {
  }

  lemma MovesIn<L>(t: multiset<L>, q: multiset<L>, p: multiset<L>, a: multiset<L>)
    ensures t + (q + a) + p == t + q + (p + a)
  {
  }

  lemma ComesBack<L>(t: multiset<L>, q: multiset<L>, a: multiset<L>)
    ensures t + (q + a) + multiset{} == t + q + a
  {
  }

  lemma Executes<L>(t: multiset<L>, q: multiset<L>, tag: L, p: multiset<L>)
    ensures (t + multiset{tag}) + q + p == t + q + (multiset{tag} + p)
  {
  }

  lemma {:induction false} RunKeepsSlices<L>(s: State<L>, acts: seq<Action>)
    requires Run(s, acts)
    ensures Slices(Exec(s, acts)) == Slices(s) && s.born <= Exec(s, acts).born
  {
    if acts != [] {
      var k := |acts| - 1;
      RunKeepsSlices(s, acts[..k]);
      StepKeepsSlices(Exec(s, acts[..k]), acts[k]);
    }
  }

  // ---- First come, first served ----------------------------------------------------------------

  /** How many jobs a run takes from the queue. */
  ghost function Takes<L>(s: State<L>, acts: seq<Action>): nat
    requires Run(s, acts)
  {
    if acts == [] then 0 else Takes(s, acts[..|acts| - 1]) + if acts[|acts| - 1].Take? then 1 else 0
  }

  lemma QueueShifts<L>(s: State<L>, a: Action)
    requires Enabled(s, a)
    ensures Advances(s.tasks, Apply(s, a).tasks, a.Take?)
  {
  }

  /** The job at position `i` of the queue stays in line behind exactly those before it. */
  lemma {:induction false} StaysInLine<L>(s: State<L>, acts: seq<Action>, i: nat)
    requires Run(s, acts) && i < |s.tasks| && Takes(s, acts) <= i
    ensures InLine(s.tasks, Exec(s, acts).tasks, i, Takes(s, acts))
  {
    if acts != [] {
      var k := |acts| - 1;
      var now := Exec(s, acts[..k]);
      StaysInLine(s, acts[..k], i);
      QueueShifts(now, acts[k]);
      InLineStep(s.tasks, now.tasks, Apply(now, acts[k]).tasks, acts[k].Take?, i, Takes(s, acts[..k]));
    }
  }

  /** It is the one taken after exactly `i` other takes. */
  lemma TakenInOrder<L>(s: State<L>, acts: seq<Action>, i: nat, w: nat)
    requires Run(s, acts) && i < |s.tasks| && Takes(s, acts) == i
    requires Enabled(Exec(s, acts), Take(w))
    ensures var s' := Apply(Exec(s, acts), Take(w)); w < |s'.ws| && s'.ws[w] == Busy(s.tasks[i], 0)
  {
    StaysInLine(s, acts, i);
    FrontTaken(s, Exec(s, acts), i, w);
  }

  lemma FrontTaken<L>(s: State<L>, now: State<L>, i: nat, w: nat)
    requires InLine(s.tasks, now.tasks, i, i) && Enabled(now, Take(w))
    ensures w < |Apply(now, Take(w)).ws| && Apply(now, Take(w)).ws[w] == Busy(s.tasks[i], 0)
  {
  }

  // ---- Joining the workers is joining the tasks ------------------------------------------------

  ghost predicate AllLeft<L>(s: State<L>) {
    forall w :: 0 <= w < |s.ws| ==> s.ws[w].Left?
  }

  /** `start_runtime` returns when the workers have left.  By then the queue is empty and
      every task, also one spawned by another however late, has executed each of its slices
      once, in order; and the slices executed are just those of the programs given before
      start and of everything they spawn. */
  lemma JoinIsComplete<L>(progs: seq<Prog<L>>, m: nat, acts: seq<Action>)
    requires m >= 1 && Run(Init(progs, m), acts)
    requires AllLeft(Exec(Init(progs, m), acts))
    ensures var s := Exec(Init(progs, m), acts);
      && s.tasks == [] && |s.place| == |s.born| && progs <= s.born
      && AllOf(s.trace) == SlicesOf(progs)
      && (forall id: TaskId :: id < |s.born| ==> s.place[id] == Finished && Own(s.trace, id) == Labels(s.born[id]))
      && (forall id: TaskId :: id >= |s.born| ==> Own(s.trace, id) == [])
  {
    InitInv(progs, m);
    RunKeepsInv(Init(progs, m), acts);
    RunKeepsSlices(Init(progs, m), acts);
    SlicesAtInit(progs, m);
    var s := Exec(Init(progs, m), acts);
    NothingPending(s.ws);
    forall id: TaskId | id < |s.born|
      ensures s.place[id] == Finished && Own(s.trace, id) == Labels(s.born[id])
    {
      assert PlaceOk(s, id);
    }
  }

  lemma SlicesAtInit<L>(progs: seq<Prog<L>>, m: nat)
    ensures Slices(Init(progs, m)) == SlicesOf(progs)
  {
    NothingPending(Init(progs, m).ws);
    assert Progs(Init(progs, m).tasks) == progs;
  }

  /** Every run ends, after a number of steps that the programs and the number of workers
      determine, and it cannot stop before the workers have left. */
  lemma JoinIsReached<L>(progs: seq<Prog<L>>, m: nat, acts: seq<Action>)
    requires m >= 1 && Run(Init(progs, m), acts)
    ensures var s := Exec(Init(progs, m), acts);
      var total := 3 * SizeAll(progs) - |progs| + m;
      && |acts| <= total
      && (AllLeft(s) <==> |acts| == total)
      && (AllLeft(s) <==> forall a :: !Enabled(s, a))
  {
    InitInv(progs, m);
    RunKeepsInv(Init(progs, m), acts);
    RunCounts(Init(progs, m), acts);
    StepsAtInit(progs, m);
    StepsAtEnd(Exec(Init(progs, m), acts));
    SomeoneCanMove(Exec(Init(progs, m), acts));
  }

  lemma StepsAtInit<L>(progs: seq<Prog<L>>, m: nat)
    ensures StepsLeft(Init(progs, m)) == 3 * SizeAll(progs) - |progs| + m
  {
    LoadsReady(Init(progs, m).ws);
    assert Progs(Init(progs, m).tasks) == progs;
  }

  lemma StepsAtEnd<L>(s: State<L>)
    requires Inv(s)
    ensures StepsLeft(s) >= 0 && (AllLeft(s) <==> StepsLeft(s) == 0)
  {
    SizeAtLeast(Progs(s.tasks));
    LoadsPositive(s.ws);
  }

  lemma {:induction false} LoadsPositive<L>(ws: seq<Worker<L>>)
    requires forall w :: 0 <= w < |ws| && ws[w].Busy? ==> ws[w].spawned <= |ws[w].job.prog.spawns|
    ensures Loads(ws) >= 0
    ensures Loads(ws) == 0 <==> forall w :: 0 <= w < |ws| ==> ws[w].Left?
  {
    if ws != [] {
      var n := |ws| - 1;
      assert forall w :: 0 <= w < n ==> ws[..n][w] == ws[w];
      LoadsPositive(ws[..n]);
      if ws[n].Busy? {
        var (ps, i) := (ws[n].job.prog.spawns, ws[n].spawned);
        assert ps == ps[..i] + ps[i..];
        SizeAppend(ps[..i], ps[i..]);
      }
    }
  }

  lemma SomeoneCanMove<L>(s: State<L>)
    requires Inv(s)
    ensures AllLeft(s) <==> forall a :: !Enabled(s, a)
  {
    if !AllLeft(s) {
      var w: nat :| w < |s.ws| && !s.ws[w].Left?;
      match s.ws[w]
      case Ready => assert Enabled(s, if s.tasks == [] then Leave(w) else Take(w));
      case Busy(job, i) => assert Enabled(s, if i == |job.prog.spawns| then EndSlice(w) else Go(w));
      case Yielded(_) => assert Enabled(s, Requeue(w));
    }
  }
}
