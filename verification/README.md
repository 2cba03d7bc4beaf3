# A verified model of the runtime's wake protocol

The repository is a small goroutine runtime: tasks with `go`, `gosched`, `gopark` and
`goready`, schedulers that run them on one or many threads, and channels, timers and
WaitGroups built on parking and waking.  This Dafny project models those parts and proves
that no interleaving loses a wakeup, a task or a value.

Every lock-protected section of the source is one atomic step.  Steps of different tasks and
workers interleave without restriction, over any number of tasks, channels, groups and
workers.  A machine is a set of actions with `Enabled` and `Apply`; its runs are sequences of
actions (`Run`, `Exec`).  Where the source mutates an object, a class performs the same
section in place and is proved equal to the value function that the machine uses
(`Chan` and `SendLock`/`RecvLock`/`CloseLock`, `GlobalQueue` and `Goready`/`CommitPark`/
`GoIdle`/`WakeUp`, and so on); the properties are then proved of the machine.

| file | models |
|---|---|
| Common.dfy | task identifiers and states, counting along sequences |
| ParkWake.dfy | the token protocol between registering, parking and waking |
| Channel.dfy | one channel: lock sections, invariants, refinement of an atomic queue, class `Chan` |
| ChannelSystem.dfy | any number of tasks and channels over the token protocol |
| ChannelInvariant.dfy, ChannelTheorems.dfy | its invariant, and what it guarantees in every state |
| ChannelHistory.dfy | what a run of it says about its past: closes, lost values, the atomic queue |
| ProducerConsumer.dfy | the pattern of the channel demo, end to end |
| GlobalQueues.dfy | the scheduler's queue: lock sections and class `GlobalQueue` |
| Workers.dfy | worker threads, poller, timer heap, idling and shutdown |
| WorkersInvariant.dfy, WorkersTheorems.dfy | their invariant, and what they guarantee in every state |
| WorkersHistory.dfy | sleeps and timers in terms of the wake times asked for |
| Runtime.dfy | workers and channels together |
| GroupRuntime.dfy | workers and WaitGroups together |
| EndToEnd.dfy | the channel demo on workers and channels together |
| Timers.dfy | the timer heap and the loop of `check_timers` |
| WaitGroups.dfy | WaitGroup over the same protocol |
| GroupHistory.dfy | its counters, waiters and wakeups in terms of the calls made |
| Poll.dfy | the scheduler of poll.rs, with its other shutdown test |
| Programs.dfy, Green.dfy, Multi.dfy | finite task programs on the N:1 and the simple M:N loop |

A panic inside a task ends the process, because `task_entry` is `extern "C"`
(`src/runtime/channel.rs:63`); the machines model it as an aborted state without actions.
Histories (`sent`, `handed`, `returned`, `lost`, `deltas`, traces) and auxiliary maps (where a
registration or a task is) record what the properties speak about; no step depends on them,
except that a task is assumed to be readied only by whoever holds its registration.

Three things that fail, with the exact condition:

- A comment says that `close` wakes parked senders and that they panic.  A sender whose value
  was already taken panics as well if the channel is closed before it resumes:
  `ChannelTheorems.PanicAfterDelivery` reaches such a state, and
  `ChannelHistory.PanicsThoughServedIff` says for which `close` it happens.
- In poll.rs a wakeup can be lost, also one made by the poller: `Poll.WakeupLost` and
  `Poll.PollerWakesInVain` are runs, `Poll.GoreadyWorksIff` and `Poll.PollerWakesIff` the
  condition.  On epoll the descriptor stays registered, level-triggered, and the poller
  reports the task again (`src/netpoll/epoll.rs:33-43`); on kqueue it is registered one-shot
  (`src/netpoll/kqueue.rs:33-37`) and is not.  timer.rs and channel.rs have tokens against it
  (`GlobalQueues.EitherOrder`).
- A timer may be left unserved with all workers idle: `WorkersTheorems.TimerLeftUnserved` is
  such a state, `WorkersTheorems.AbandonedIff` the step that leads there.

The comment on `recv`'s last check reads `None` as "woken by close".  That is right, and more
holds: the channel was empty at that `close` (`ChannelHistory.ParkedRecvNoneIff`).

## Model

| member | source | states |
|---|---|---|
| `ParkWake.StepInv` | src/runtime/channel.rs:202-228 | every spawn, registration, park commit, `goready` and task end keeps the token invariant: `pending_ready` is within the parking tasks and disjoint from `waiting`, and a task is owed a wakeup exactly when it is filed, or parking without a token |
| `ParkWake.ReadyHarmlessIff` | src/runtime/channel.rs:272-296 | a `goready` keeps that invariant if and only if its target is parked or parking; for a task that executes it leaves a stale token |
| `ParkWake.TokensConserved` | src/runtime/channel.rs:208-223 | over every run: registrations = wakeups + (1 if still owed one) = settled parks + (1 if still parking) |
| `ParkWake.ActiveIsSettled` | src/runtime/channel.rs:208-296 | whenever a task executes, its registrations, wakeups and parks are equally many and it has no token, so no later `gopark` returns spuriously |
| `Channel.Chan.constructor` | src/runtime/channel.rs:681-692 | an empty open channel of just the capacity asked for, satisfying the channel invariant |
| `Channel.Chan.LockSend` | src/runtime/channel.rs:700-726 | the locked section of `send` in place: panic when closed, direct delivery to the first parked receiver, buffer, or queue itself; new state and outcome are those of `SendLock`, and the channel invariant stays |
| `Channel.Chan.LockRecv` | src/runtime/channel.rs:743-784 | the locked section of `recv` in place: new state and outcome are those of `RecvLock`, the channel invariant stays, and the `unwrap` never fails |
| `Channel.Chan.ResumeRecv` | src/runtime/channel.rs:791-792 | a woken `recv` takes its own entry out of `delivered`, or gets `None`; nothing else of the channel changes |
| `Channel.Chan.LockClose` | src/runtime/channel.rs:800-816 | the locked section of `close`: panic when closed, else both queues are drained and their tasks listed, receivers first; the invariant stays |
| `Channel.SendKeepsInv` | src/runtime/channel.rs:698-726 | `send` keeps the queue shapes (buffer within capacity; a parked receiver excludes buffered values and parked senders; a parked sender implies a full buffer; ids distinct; no uncollected value of a parked receiver) and the equation sent = handed ++ buffer ++ parked ++ lost |
| `Channel.RecvKeepsInv` | src/runtime/channel.rs:741-784 | `recv` keeps them too, and the `unwrap` on the buffer in the refill path never fails |
| `Channel.CloseKeepsInv` | src/runtime/channel.rs:799-816 | `close` keeps them too |
| `Channel.SendRefines` | src/runtime/channel.rs:698-726 | each `send` section that does not panic is an enqueue of an atomic queue (direct delivery: enqueue and dequeue), and it panics exactly when that queue refuses |
| `Channel.RecvRefines` | src/runtime/channel.rs:741-784 | whichever path `recv` takes, a value it obtains is the head of the atomic queue and is dequeued; `None` exactly on the closed empty queue, parking exactly on the open empty one |
| `Channel.CloseRefines` | src/runtime/channel.rs:799-816 | `close` shuts the atomic queue, drops exactly the parked senders' values, keeps the buffer, and lists every waiter once, receivers before senders |
| `ChannelInvariant.StepKeepsInv` | src/runtime/channel.rs:698-825 | every action of every task, at any point of any operation on any channel, keeps the global invariant of tasks, channels, registrations and tokens |
| `ChannelInvariant.ReachableInv` | src/runtime/channel.rs:698-825 | so that invariant holds in every state of every interleaving, for any number of tasks and channels |
| `ChannelInvariant.KeepsParkWake` | src/runtime/channel.rs:272-296 | every wakeup made by `send`, `recv`, `close` or a timer is owed: channel operations keep to the wake discipline |
| `ChannelInvariant.UserIsUnbound` | src/runtime/channel.rs:698-825 | a task that runs between operations is queued nowhere, has no uncollected value and owes no wakeup: what the locked sections assume of their caller always holds |
| `ChannelTheorems.ChannelIsFifo` | src/runtime/channel.rs:698-793 | in every reachable state sent == handed ++ buf ++ data(sendq) ++ lost, `lost` is empty until `close`, and the queue-shape facts hold |
| `ChannelTheorems.DeliveryNeverOverwrites` | src/runtime/channel.rs:708-714 | `delivered.insert` never replaces a value that its receiver has not collected |
| `ChannelTheorems.RecvReturnsWhatWasHanded` | src/runtime/channel.rs:741-793 | when a `recv` returns, everything handed to its caller has been returned to it, in order; `None` only from a closed channel with nothing left in it |
| `ChannelHistory.ParkedRecvNoneIff` | src/runtime/channel.rs:786-792 | over every run, a parked `recv` returns `None` if and only if some `close` found its caller in `recvq`; the channel was open and empty at that `close`, and every value sent had been handed over |
| `ChannelTheorems.HandedIsReturnedOrHeld` | src/runtime/channel.rs:708-714 | in every reachable state, for each receiver, what it returned followed by what it still holds is what was handed to it, in order; and as multisets returned + held = handed |
| `ChannelTheorems.SendReturnsInTime` | src/runtime/channel.rs:698-735 | the n-th send (from 0) returns only when its value is handed over or buffered, so at least n + 1 - cap values have been handed over; with capacity 0 its own value has; never for a value that `close` discarded |
| `ChannelHistory.SendReturnsItsOwn` | src/runtime/channel.rs:698-735 | over every run, a `send` that returns does so for its own call: the value its task passed to its last `send` has been handed over or is buffered, at the position that call was given |
| `ChannelHistory.CapacityIsAsAsked` | src/runtime/channel.rs:681-692 | in every state of every run a channel has the capacity passed to `with_capacity`, before the start or at some step of the run |
| `ChannelHistory.CapacityBounds` | src/runtime/channel.rs:716-725 | in terms of the capacity asked for: no more values are buffered, a parked sender faces just so many, and the n-th send (from 0) returns only when at least n + 1 - cap values have been handed over, its own if cap is 0 |
| `ChannelHistory.SendReturnsAtOnceIff` | src/runtime/channel.rs:716-725 | on an open channel without parked receivers a `send` returns at once if and only if fewer values are buffered than the capacity asked for; otherwise it parks |
| `ChannelHistory.ParkedSendOutcome` | src/runtime/channel.rs:728-735 | a parked `send` panics exactly when the channel is closed by then, and otherwise its value was handed over or is buffered; on a closed channel its value is in `lost` if and only if it did not get through; so it panics exactly for discarded values if and only if the channel is not both closed and past its value |
| `ChannelHistory.PanicsThoughServedIff` | src/runtime/channel.rs:728-735 | a parked `send` panics for a value that got through if and only if the `close` came while it was still waiting with its value already taken or buffered |
| `ChannelHistory.CloseDoomsSenders` | src/runtime/channel.rs:799-825 | whoever waits to send at the `close` panics when it resumes, whatever happens in between, and whether its value is lost is settled at the `close` |
| `ChannelTheorems.PanicAfterDelivery` | src/runtime/channel.rs:730-734 | a reachable state in which a `send` panicked although its value was received and nothing was discarded |
| `ChannelTheorems.ReceiversInLine` | src/runtime/channel.rs:708-714 | while the channel is open, the receiver at position i of `recvq` moves up by one for each `send` that serves a receiver, and for nothing else |
| `ChannelTheorems.ServedInOrder` | src/runtime/channel.rs:708-714 | it gets the value of the first `send` after exactly i others have served a receiver |
| `ChannelTheorems.CloseIsFinal` | src/runtime/channel.rs:799-825 | after `close`, along every run: both queues stay empty, nothing more is sent or lost, and what is still handed over is the buffer, in order |
| `ChannelHistory.CloserWakesAll` | src/runtime/channel.rs:799-825 | along every run after a `close`, the wakeups its task makes are just the waiters it found, each once, receivers before senders, in queue order, and it does nothing else until all are made |
| `ChannelHistory.RunRefinesQueue` | src/runtime/channel.rs:698-825 | every run, seen at any channel, is a legal sequence of operations of an atomic queue that puts in the values sent, takes out the values handed over, in order, and ends in the queue the channel represents |
| `ChannelTheorems.OperationsOnClosed` | src/runtime/channel.rs:745-748 | on a closed channel `send` and `close` panic, and `recv` takes the head of the buffer or returns `None` |
| `ChannelTheorems.OnlyRealDeadlocks` | src/runtime/channel.rs:202-228 | with no task runnable or running and no timer pending, every live task is queued in exactly one place: `recvq` of an open, empty channel without parked senders, or `sendq` of an open, full channel without parked receivers |
| `ChannelTheorems.RunIsDisciplined` | src/runtime/channel.rs:277-296 | every run of tasks and channels is a disciplined run of the park/wake protocol |
| `ChannelTheorems.EveryWaitMatched` | src/runtime/channel.rs:208-296 | in every such run, whenever a task executes, its registrations are matched one to one by wakeups and parks, and it has no token |
| `ProducerConsumer.ProducerConsumerCorrect` | examples/channel_demo.rs:62-104 | for every input, capacity, positive number of receivers and interleaving: no run aborts or, for an input of length k, exceeds 6·k + 6·n + 3 steps; it can stop only with all tasks finished; then the receivers got exactly the values sent, and a single receiver exactly that sequence |
| `ProducerConsumer.StepIsGood` | examples/channel_demo.rs:64-102 | no step of the pattern panics, and each keeps its shape (who may wait where, what is still to send) |
| `ProducerConsumer.Decreases` | examples/channel_demo.rs:64-102 | every step lowers the measure, whoever takes it |
| `ProducerConsumer.SomethingToDo` | examples/channel_demo.rs:64-102 | while some task has not finished, some step is possible |
| `EndToEnd.AtRestAllIsDelivered` | examples/channel_demo.rs:62-104 | the pattern on the whole runtime, with any number of workers: nothing aborts, the tasks take at most 6·k + 6·n + 3 steps for an input of length k, and when all workers are idle or one has left, all tasks have finished and the receivers got exactly the values sent |
| `EndToEnd.StepKeepsInv` | examples/channel_demo.rs:62-104 | every step of a worker or task contains at most one step of the pattern, pays for it, and keeps runtime and pattern in agreement |
| `GroupRuntime.TaskStepMatched` | src/sync.rs:69-114 | whatever a task does next on a WaitGroup, the scheduler's part of it is enabled with the same protocol label |
| `GroupRuntime.SchedStepMatched` | src/runtime/timer.rs:202-225 | when the scheduler settles a park or fires a timer, the task is ready for it, with the same label |
| `GroupRuntime.RunKeepsInv` | src/runtime/timer.rs:108-229 | in every run of scheduler and WaitGroups together both keep their invariants and agree on the protocol state |
| `GroupRuntime.QuietMeansWaiting` | src/runtime/timer.rs:108-229 | when all workers are idle or gone and no timer is pending, every live task waits on a group whose counter is positive |
| `GroupRuntime.LeavingMeansDone` | src/runtime/timer.rs:137-170 | when a worker has left, every task has finished and no group has waiters |
| `GlobalQueues.GlobalQueue.constructor` | src/runtime/channel.rs:77-93 | an empty queue with no workers |
| `GlobalQueues.GlobalQueue.Go` | src/runtime/channel.rs:338-347 | `go` appends the new task and notifies when a worker is idle; nothing else changes |
| `GlobalQueues.GlobalQueue.PopFront` | src/runtime/channel.rs:125-127 | takes the first task and marks it running, or reports none and changes nothing |
| `GlobalQueues.GlobalQueue.YieldBack` | src/runtime/channel.rs:224-228 | a task that yielded goes to the back, runnable |
| `GlobalQueues.GlobalQueue.SettlePark` | src/runtime/channel.rs:208-223 | a parked task with a token goes back to the queue and its token is used up; without one it is filed in `waiting` |
| `GlobalQueues.GlobalQueue.Ready` | src/runtime/channel.rs:277-296 | `goready` moves a filed task to the back of the queue, and leaves a token otherwise; it notifies only in the first case |
| `GlobalQueues.GlobalQueue.Enroll` | src/runtime/channel.rs:113-117 | registers one more worker and changes nothing else |
| `GlobalQueues.GlobalQueue.BecomeIdle` | src/runtime/channel.rs:143-159 | counts the worker idle; with the values read before the lock it leaves exactly when the queue is quiescent, staying counted as idle |
| `GlobalQueues.GlobalQueue.AfterWait` | src/runtime/channel.rs:162-178 | after the condition variable: leave if quiescent, else take a task, else loop |
| `GlobalQueues.EitherOrder` | src/runtime/channel.rs:208-296 | `goready` before or after the park is settled gives the same queue: the task runnable, once, at the back, and no token left |
| `WorkersInvariant.StepKeepsInv` | src/runtime/channel.rs:109-235 | every locked section of every worker, and every step of the task it runs, keeps the scheduler invariant (places of tasks, protocol state, timers, counters, attention, late exits) |
| `WorkersInvariant.ReachableInv` | src/runtime/channel.rs:109-235 | so it holds in every state of every run from a fresh queue with at least one worker |
| `WorkersInvariant.CommitTasks` | src/runtime/channel.rs:208-223 | settling a park keeps each live task in one place, and `waiting.insert` never overwrites an entry |
| `WorkersInvariant.FirstExit` | src/runtime/channel.rs:143-159 | the first worker to leave does so while going idle; no task is alive then, and every other registered worker is idle |
| `WorkersTheorems.LiveTasksArePlaced` | src/runtime/channel.rs:202-230 | a task is alive if and only if it is in `runnable`, in `waiting` or in the slot of some worker |
| `WorkersTheorems.OnePlaceEach` | src/runtime/channel.rs:202-230 | it is in only one of them, only once, and its state agrees with the place |
| `WorkersTheorems.TokensBelongToParkingTasks` | src/runtime/channel.rs:208-213 | a token belongs only to a task still in some worker's slot, on its way to park |
| `WorkersTheorems.StaysInLine` | src/runtime/channel.rs:125-127 | as long as at most i tasks have been dispatched, the task at position i of `runnable` has moved up by just that number |
| `WorkersTheorems.DispatchOrder` | src/runtime/channel.rs:125-127 | the task at position i of `runnable` is the one dispatched after exactly i other dispatches |
| `WorkersTheorems.NoStrandedTask` | src/runtime/channel.rs:120-181 | if a task is runnable, some worker is bound to look at the queue again; with all workers idle or gone, none is runnable |
| `WorkersTheorems.ExitSafety` | src/runtime/channel.rs:138-170 | once any worker has left, every task ever created is dead, nothing is queued, filed or pending, and no timer is outstanding, although timers were read before the lock |
| `WorkersTheorems.WorkerAccounting` | src/runtime/channel.rs:143-170 | `idle_workers` is the number idle plus the number that left while going idle, `all_workers` the number registered and not gone; neither underflows |
| `WorkersTheorems.OnePoller` | src/runtime/channel.rs:554-618 | at most one worker polls at a time |
| `WorkersTheorems.FirstExitCloses` | src/runtime/channel.rs:143-159 | the first exit is through the go-idle branch and leaves all other registered workers idle |
| `WorkersTheorems.RestExitsIff` | src/runtime/channel.rs:143-159 | a worker going idle leaves if and only if no task is alive, it saw no timer, and with it those idle and those that left this way before are as many as the registered |
| `WorkersTheorems.WakeExitsIff` | src/runtime/channel.rs:162-170 | a worker that wakes up leaves if and only if no task is alive, no timer is pending, and those idle and those that left while going idle are one more than the registered |
| `WorkersTheorems.LateWorkerStays` | src/runtime/channel.rs:143-170 | once a worker has left while going idle, a worker that goes idle with all other registered workers idle does not leave but waits |
| `WorkersTheorems.FirstExitIff` | src/runtime/channel.rs:143-159 | a worker going idle is the first to leave if and only if no task is alive, it saw no timer, and every other registered worker is idle |
| `WorkersTheorems.ShutdownCascade` | src/runtime/channel.rs:162-170 | after the first exit, if no further worker registers, every worker that wakes leaves and nothing else happens; the counters head for idle 1 and all 0 |
| `WorkersHistory.NeverEarly` | src/runtime/timer.rs:252-264 | over every run: if some step was a call of `sleep` by a task with a given wake time, that task acts again only when the clock has reached that time |
| `WorkersHistory.EntryIsAsAsked` | src/runtime/timer.rs:257-260 | every entry of the heap has just the wake time that its task passed to its last call of `sleep` |
| `WorkersHistory.CheckIsThorough` | src/runtime/timer.rs:496-516 | when a worker ends `check_timers`, whatever happened in between, every timer left in the heap is due later than the time at which the check began |
| `WorkersTheorems.PendingTimerHoldsTask` | src/runtime/timer.rs:496-516 | a heap entry is there once and belongs to a live task that is filed or on a worker; while there is one, no worker has left |
| `WorkersTheorems.AbandonedIff` | src/runtime/channel.rs:554-571 | while timers are pending some worker is bound to look at them or runs a task, and a step ends that if and only if the last such worker fails to get the poll flag; its holder looked before the timers were there |
| `WorkersTheorems.TimerLeftUnserved` | src/runtime/channel.rs:554-571 | a reachable state in which both workers are idle while an expired timer is in the heap |
| `WorkersTheorems.SchedulerRefinesParkWake` | src/runtime/channel.rs:202-296 | every run of the scheduler is a disciplined run of the park/wake protocol, and `waiting` and `pending_ready` are that protocol's sets |
| `WorkersTheorems.WakeupsMatchRegistrations` | src/runtime/timer.rs:496-516 | whenever a task executes, each of its timer entries and other registrations has produced exactly one `goready` and one park, and no token is left |
| `Runtime.TaskStepMatched` | src/runtime/channel.rs:698-825 | whatever a task does next on a channel, the scheduler's part of it is enabled with the same protocol label |
| `Runtime.SchedStepMatched` | src/runtime/channel.rs:202-230 | when the scheduler settles a park or fires a timer, the task is ready for it, with the same label |
| `Runtime.RunKeepsInv` | src/runtime/channel.rs:109-296 | in every run of scheduler and channels together both keep their invariants and agree on the protocol state |
| `Runtime.QuietMeansDeadlock` | src/runtime/channel.rs:109-235 | when all workers are idle or gone and no timer is pending, every live task is in a real deadlock on a channel |
| `Runtime.LeavingMeansDone` | src/runtime/channel.rs:138-170 | when a worker has left, every task has finished and every wait queue of every channel is empty |
| `Timers.TimerHeap.constructor` | src/runtime/timer.rs:491-493 | an empty heap |
| `Timers.TimerHeap.Push` | src/runtime/timer.rs:257-260 | adds one entry |
| `Timers.TimerHeap.PeekIndex` | src/runtime/timer.rs:501 | finds an entry with the earliest wake time |
| `Timers.TimerHeap.RemoveAt` | src/runtime/timer.rs:503 | removes just that entry |
| `Timers.TimerHeap.CheckTimers` | src/runtime/timer.rs:496-516 | whatever is pushed while the lock is free: only expired entries are fired, every entry is fired or still there, none expired is left at the last look, and the result is the true minimum then, later than `now` |
| `Timers.QuietFiresExpired` | src/runtime/timer.rs:496-516 | without such pushes exactly the expired entries are fired, in the order of their wake times |
| `WaitGroups.WaitGroup.constructor` | src/sync.rs:56-63 | counter 0 and no waiters |
| `WaitGroups.WaitGroup.Add` | src/sync.rs:69-85 | writes the new counter and then panics if it is negative; an overflow panics before the write in a build with overflow checks, and wraps in one without; at zero it takes all waiters to wake |
| `WaitGroups.AddIsExact` | src/sync.rs:69-85 | in both builds `add` panics exactly when the sum is negative or exceeds i32; otherwise the counter becomes the sum; a panic touches no waiter |
| `WaitGroups.WaitGroup.Wait` | src/sync.rs:101-111 | returns at once on zero, else registers the task |
| `WaitGroups.StepKeepsInv` | src/sync.rs:69-114 | every action of every task on every group keeps the global invariant |
| `WaitGroups.CounterIsSum` | src/sync.rs:69-85 | in every reachable state that is not aborted, in both builds, the counter is the sum of all deltas, non-negative and within i32, and waiters imply that it is positive |
| `GroupHistory.CounterIsSumOfAdds` | src/sync.rs:69-96 | that sum is the one of what callers added: what the counter was raised to before the start, and the arguments of every `add` and `done` of the run |
| `GroupHistory.WaitersInOrder` | src/sync.rs:101-111 | over every run `waiters` is, in order, the tasks whose `wait` registered since the counter last came to zero |
| `GroupHistory.WokenInOrderOfWaits` | src/sync.rs:78-90 | along every run after it, the task whose `add` brings the counter to zero wakes just those, each once, in the order of their calls of `wait`, and does nothing else until it has |
| `WaitGroups.LastZeroIsTrue` | src/sync.rs:72-85 | the recorded moment of the last zero was a moment at which the counter was zero |
| `GroupHistory.WaitReturnsAfterZero` | src/sync.rs:101-114 | if some step of a run is a `wait` that finds the counter above zero, then when its task is about to resume the counter has been zero at some moment since that step |
| `WaitGroups.AddWakesAllAtZero` | src/sync.rs:69-91 | `add` aborts exactly outside the range and wakes nobody then; otherwise the counter becomes the sum; at zero it takes over every waiter, each once; above zero it only counts; other groups never change |
| `WaitGroups.EveryWaitMatched` | src/runtime/timer.rs:207-217 | each registered wait is answered by exactly one `goready`, even one that comes before the park, and leaves no token |
| `WaitGroups.OnlyRealWaits` | src/sync.rs:101-114 | if no task can run and no timer is pending, every live task waits in a group whose counter is positive |
| `Poll.PollQueue.constructor` | src/runtime/poll.rs:76-87 | an empty queue with no workers |
| `Poll.PollQueue.AtTop` | src/runtime/poll.rs:114-130 | take a task, else leave if the test says so, else poll |
| `Poll.PollQueue.AfterWait` | src/runtime/poll.rs:143-158 | after the condition variable: leave, else take a task, else loop |
| `Poll.PollQueue.Ready` | src/runtime/poll.rs:225-240 | `goready` moves a filed task to the queue and ignores any other |
| `Poll.StepKeepsInv` | src/runtime/poll.rs:101-204 | every action, with arbitrary poller results and arbitrary `goready`s, keeps tasks in one place, counters exact and exits late |
| `Poll.ExitSafety` | src/runtime/poll.rs:117-151 | once a worker has left by either exit, every task ever created is dead and none is queued, filed or running |
| `Poll.ExitIff` | src/runtime/poll.rs:117-151 | a worker leaves, at the top of its loop or after waking, if and only if no task is alive, the poller has no waiters, and every other registered worker is idle |
| `Poll.NoStrandedTask` | src/runtime/poll.rs:112-161 | if a task is runnable, some worker is bound to look at the queue again; with all workers idle or gone, none is runnable |
| `Poll.StaysInLine` | src/runtime/poll.rs:117-119 | as long as at most i tasks have been dispatched, the task at position i of `runnable` has moved up by just that number |
| `Poll.DispatchOrder` | src/runtime/poll.rs:117-159 | the task at position i of `runnable` is the one dispatched after exactly i other dispatches |
| `Poll.PollerWakesInOrder` | src/runtime/poll.rs:462-465 | the poller wakes the tasks reported to it in the order of the report, each once |
| `Poll.GoreadyWorksIff` | src/runtime/poll.rs:225-240 | in every reachable state a `goready` has an effect if and only if its task is filed in `waiting`; then the task becomes runnable |
| `Poll.EarlyWakeupIsLost` | src/runtime/poll.rs:225-240 | without tokens a `goready` that precedes the filing of its task has no effect and the task is filed; after the filing it makes the task runnable |
| `Poll.WakeupLost` | src/runtime/poll.rs:188-192 | a run of two workers and two tasks in which that happens |
| `Poll.PollerWakesIff` | src/runtime/poll.rs:462-465 | the same for the wakeups that the poller makes for the tasks it reported |
| `Poll.PollerWakesInVain` | src/runtime/poll.rs:439-468 | a run of one task and two workers in which the poller wakes the task before it is filed, in vain |
| `Poll.StaysFiled` | src/runtime/poll.rs:225-240 | along every run in which no further `goready` is made for it, a filed task stays filed |
| `Poll.Accounting` | src/runtime/poll.rs:90-99 | `idle_workers` is the number idle and `all_workers` the number registered and not gone, so `all_workers - 1` never underflows |
| `Green.Worker.constructor` | src/runtime/green.rs:69-76 | no tasks and no current task; the account of the worker (jobs of different tasks; what each task executed and what it still has to is its program) is valid |
| `Green.Worker.Go` | src/runtime/green.rs:134-146 | appends the new task and keeps the account |
| `Green.Worker.SwitchTo` | src/runtime/green.rs:116 | the switch into the current task: its next slice is executed, its children are appended in order, and it comes back yielded or finished; the account is kept |
| `Green.Worker.Turn` | src/runtime/green.rs:99-125 | one pass of the loop: the queue becomes what `Requeued` says, one slice is executed, and the account is kept |
| `Green.Worker.WorkerLoop` | src/runtime/green.rs:96-128 | the loop terminates for all finite programs with an empty queue, having executed exactly the run that `RunAll` describes; by then every task created so far has executed each of its slices once, in program order |
| `Green.RequeuedShrinks` | src/runtime/green.rs:116-124 | each slice lowers the number of slices still due by one, counting nested `go`, and takes just its own slice out |
| `Green.RunsWhatIsDue` | src/runtime/green.rs:96-128 | the loop makes each task execute just what the initial and the spawned programs say for it |
| `Green.RoundByRound` | src/runtime/green.rs:98-126 | round robin, nested `go` included: each task of the queue has one turn, in order, and then the loop goes on with what gathered behind: for each task in order its children and then itself if it yielded |
| `Green.EachTaskInOrder` | src/runtime/green.rs:96-146 | in the run that `RunAll` describes every task, initial or spawned, executes its own slices exactly once and in program order |
| `Green.AllSlicesRun` | src/runtime/green.rs:96-146 | the slices executed are, as a multiset, those of all programs |
| `Green.TraceIsTransposition` | src/runtime/green.rs:96-128 | without nested `go` the trace is the transposition of the tasks' slices, round by round |
| `Multi.Pool.constructor` | src/runtime/multi.rs:153-160 | an empty queue and m workers about to look at it |
| `Multi.Pool.Register` | src/runtime/multi.rs:130-140 | `go` before start: one more program in the initial state |
| `Multi.Pool.Pop` | src/runtime/multi.rs:86-96 | the first task is taken; the worker leaves when there is none |
| `Multi.Pool.Spawn` | src/runtime/multi.rs:130-140 | `go` inside a task appends the child |
| `Multi.Pool.SwitchBack` | src/runtime/multi.rs:112-118 | the slice is over: the task yielded, or finished and is dropped |
| `Multi.Pool.PutBack` | src/runtime/multi.rs:115-120 | a task that yielded goes to the back of the queue |
| `Multi.EveryStepCounts` | src/runtime/multi.rs:84-125 | every step of every worker brings the end exactly one step nearer |
| `Multi.RunKeepsInv` | src/runtime/multi.rs:84-125 | along every interleaving each unfinished task is in one place, and what it executed followed by what it still has to execute is its program; a non-empty queue has a worker that has not left |
| `Multi.StaysInLine` | src/runtime/multi.rs:90-92 | as long as at most i jobs have been taken, the job at position i of the queue has moved up by just that number |
| `Multi.TakenInOrder` | src/runtime/multi.rs:90-102 | the job at position i of the queue is the one taken after exactly i other takes |
| `Multi.StepKeepsSlices` | src/runtime/multi.rs:84-125 | every step of every worker keeps the slices executed, queued and held together, nested spawns included |
| `Multi.JoinIsComplete` | src/runtime/multi.rs:153-166 | when all workers have left the queue is empty and every task, however late it was spawned, has executed each of its slices once and in order; the slices executed are just those of the programs given before start and of all they spawn |
| `Multi.JoinIsReached` | src/runtime/multi.rs:153-166 | every run ends after a number of steps fixed by the programs and the number of workers, and can stop only when all workers have left |

## Left out

- Network polling as a wake source (`net_poll_read`, `src/netpoll/`): the poller may report one task twice, which the wake discipline excludes.  For channel.rs and timer.rs the model assumes that there are no network waiters; for poll.rs the waiters flag and the poller's reports are arbitrary.
- User code that calls `gopark` or `goready` directly, and threads outside the runtime that call `go`, `send` or `recv`: `ParkWake.ReadyHarmlessIff` says which `goready`s are harmless.
- Panics of user code other than those of channel and WaitGroup operations.
- That a pending timer is ever fired by a worker: it need not be (`WorkersTheorems.TimerLeftUnserved`).  Beyond `WorkersTheorems.AbandonedIff` only safety of timers is proved.
- That `start_runtime` returns when workers register late, or on a second run over the same queue: the exit through the go-idle branch leaves `idle_workers` at 1, and a worker that comes late waits (`WorkersTheorems.LateWorkerStays`).  `WorkersTheorems.ShutdownCascade` assumes that no worker registers after the first exit, and says nothing about when idle workers wake up.
- Notifications: leaving the condition variable is possible at any time, so `notify_one` and `notify_all` matter only for liveness.  The methods of `GlobalQueues.GlobalQueue` report them; in timer.rs settling a park does not notify.
- The time at which `sleep` computes its wake time: the wake time is arbitrary, and the clock only never runs backwards.
- Identifier and length overflow (`TaskId` is a 64-bit counter, worker counters and capacities are `usize`): all are unbounded here; the counters are proved never to underflow.
- Context-switch assembly, stacks and closure pointers: a switch resumes the continuation of a task.
- Channels and WaitGroups in one product: each is put together with the workers and timers, in Runtime.dfy and GroupRuntime.dfy, but not both at once.
- The insides of `VecDeque`, `HashMap`, `HashSet`, `BinaryHeap`, `Mutex` and `Condvar`: sequences, maps, sets, a multiset with a minimum, atomic sections, and waiting that may end at any time.
- File I/O wrappers, `enter_blocking`'s rule for when a worker is added (a task may add one at any time), printing, and `src/runtime/spawn.rs`, a detached variant of multi.rs.
- Timers.TimerHeap.CheckTimers: assumes that finitely many entries are pushed while it runs, since otherwise the loop of the source need not end.
- WorkersTheorems.NoStrandedTask: says that some worker is bound to look at the queue, not when.
