/** The global task queue of channel.rs (and of timer.rs, where `pending` is called
    `pre_ready`).  `Queue` is the value behind its mutex; the functions are the
    lock-protected sections, and class `GlobalQueue` performs them in place. */
module GlobalQueues {
  import opened Common

  datatype Queue = Queue(
    runnable: seq<Task>,
    waiting: map<TaskId, Task>,
    pending: set<TaskId>,
    idle: int,     // idle_workers; never negative, which Workers proves
    all: int       // all_workers
  )

  /** A queue holding the `n` tasks created before the runtime starts. */
  function Fresh(n: nat): Queue {
    Queue(seq(n, i requires 0 <= i < n => Task(i, Runnable)), map[], {}, 0, 0)
  }

  /** `go`. */
  function Push(q: Queue, id: TaskId): Queue {
    q.(runnable := q.runnable + [Task(id, Runnable)])
  }

  /** Taking the next task, which is then running. */
  function Pop(q: Queue): (Queue, Task)
    requires q.runnable != []
  {
    (q.(runnable := q.runnable[1..]), q.runnable[0].(state := Running))
  }

  /** A task that yielded goes to the back. */
  function PutBack(q: Queue, task: Task): Queue {
    q.(runnable := q.runnable + [task.(state := Runnable)])
  }

  /** A task that parked: back to the queue if a `goready` overtook it, else filed. */
  function CommitPark(q: Queue, task: Task): Queue {
    if task.id in q.pending
    then q.(pending := q.pending - {task.id}, runnable := q.runnable + [task.(state := Runnable)])
    else q.(waiting := q.waiting[task.id := task])
  }

  function Goready(q: Queue, id: TaskId): Queue {
    if id in q.waiting
    then q.(waiting := q.waiting - {id}, runnable := q.runnable + [q.waiting[id].(state := Runnable)])
    else q.(pending := q.pending + {id})
  }

  /** The condition under which a worker leaves. */
  predicate Quiescent(q: Queue, netWaiters: bool, timers: bool) {
    && q.runnable == [] && q.waiting == map[] && q.pending == {}
    && !netWaiters && !timers && q.idle == q.all
  }

  /** Going idle, with what was read about timers and the network before the lock was
      taken.  The flag says whether the worker leaves instead of waiting. */
  function GoIdle(q: Queue, netWaiters: bool, timers: bool): (Queue, bool) {
    var q1 := q.(idle := q.idle + 1);
    if Quiescent(q1, netWaiters, timers) then (q1.(all := q1.all - 1), true) else (q1, false)
  }

  datatype WakeResult = Leaves | Runs(task: Task) | Loops

  /** Coming back from the condition variable. */
  function WakeUp(q: Queue, netWaiters: bool, timers: bool): (Queue, WakeResult) {
    var q1 := q.(idle := q.idle - 1);
    if Quiescent(q1, netWaiters, timers) then (q1.(all := q1.all - 1), Leaves)
    else if q1.runnable != [] then (Pop(q1).0, Runs(Pop(q1).1))
    else (q1, Loops)
  }

  /** The bridge: whether `goready` comes before or after the park is settled, the queue
      ends up the same, with the task runnable once and no token left. */
  lemma EitherOrder(q: Queue, task: Task)
    requires task.id !in q.waiting && task.id !in q.pending
    ensures CommitPark(Goready(q, task.id), task) == Goready(CommitPark(q, task), task.id)
         == q.(runnable := q.runnable + [task.(state := Runnable)])
  {
    assert (q.pending + {task.id}) - {task.id} == q.pending;
    assert q.waiting[task.id := task] - {task.id} == q.waiting;
  }

  /** The queue object.  The methods also report whether they notified the condition
      variable. */
  class GlobalQueue {
    var runnable: seq<Task>
    var waiting: map<TaskId, Task>
    var pending: set<TaskId>
    var idle: int
    var all: int

    ghost function Model(): Queue
      reads this
    {
      Queue(runnable, waiting, pending, idle, all)
    }

    constructor ()
      ensures Model() == Fresh(0)
    {
      runnable, waiting, pending, idle, all := [], map[], {}, 0, 0;
    }

    method Go(id: TaskId) returns (notified: bool)
      modifies this`runnable
      ensures Model() == Push(old(Model()), id) && notified == (idle > 0)
    {
      runnable := runnable + [Task(id, Runnable)];
      notified := idle > 0;
    }

    method PopFront() returns (next: Option<Task>)
      modifies this`runnable
      ensures old(runnable) == [] ==> next == None && Model() == old(Model())
      ensures old(runnable) != [] ==> (Model(), next) == (Pop(old(Model())).0, Some(Pop(old(Model())).1))
    {
      if runnable == [] {
        return None;
      }
      next := Some(runnable[0].(state := Running));
      runnable := runnable[1..];
    }

    method YieldBack(task: Task)
      modifies this`runnable
      ensures Model() == PutBack(old(Model()), task)
    {
      runnable := runnable + [task.(state := Runnable)];
    }

    /** In timer.rs the first branch does not notify. */
    method SettlePark(task: Task) returns (notified: bool)
      modifies this`runnable, this`waiting, this`pending
      ensures Model() == CommitPark(old(Model()), task)
      ensures notified == (task.id in old(pending) && idle > 0)
    {
      if task.id in pending {
        pending := pending - {task.id};
        runnable := runnable + [task.(state := Runnable)];
        notified := idle > 0;
      } else {
        waiting := waiting[task.id := task];
        notified := false;
      }
    }

    method Ready(id: TaskId) returns (notified: bool)
      modifies this`runnable, this`waiting, this`pending
      ensures Model() == Goready(old(Model()), id)
      ensures notified == (id in old(waiting) && idle > 0)
    {
      if id in waiting {
        var task := waiting[id];
        waiting := waiting - {id};
        runnable := runnable + [task.(state := Runnable)];
        notified := idle > 0;
      } else {
        pending := pending + {id};
        notified := false;
      }
    }

    method Enroll()
      modifies this`all
      ensures Model() == old(Model()).(all := old(all) + 1)
    {
      all := all + 1;
    }

    method BecomeIdle(netWaiters: bool, timers: bool) returns (leaves: bool)
      modifies this`idle, this`all
      ensures (Model(), leaves) == GoIdle(old(Model()), netWaiters, timers)
    {
      idle := idle + 1;
      leaves := runnable == [] && waiting == map[] && pending == {}
        && !netWaiters && !timers && idle == all;
      if leaves {
        all := all - 1;
      }
    }

    method AfterWait(netWaiters: bool, timers: bool) returns (r: WakeResult)
      modifies this`idle, this`all, this`runnable
      ensures (Model(), r) == WakeUp(old(Model()), netWaiters, timers)
    {
      idle := idle - 1;
      if runnable == [] && waiting == map[] && pending == {}
        && !netWaiters && !timers && idle == all {
        all := all - 1;
        return Leaves;
      }
      if runnable != [] {
        var task := runnable[0];
        runnable := runnable[1..];
        return Runs(task.(state := Running));
      }
      return Loops;
    }
  }
}
