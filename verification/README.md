# miniGateway: a verified model

miniGateway polls industrial devices, processes what they report, publishes the resulting events and executes
control requests against the same devices. Its guarantees span several threads, two queues and a lifecycle that
can fail half way. This project models those parts in Dafny and proves what the code, its comments and its
documentation promise about them. `dafny verify dfyconfig.toml` checks everything.

## How it is modelled

**Concurrent protocols** are step relations: a state, one predicate per action, and runs as arbitrary finite
sequences of steps by any threads. One step is one critical section, one atomic access, one clock reading or one
call into foreign code, so every interleaving of those is a run.

| file | what it holds |
|---|---|
| `Control.dfy` | requests and results; the control dispatcher (`submit`, `request_stop`, `join`, the worker loop) for any number of callers |
| `DispatcherInvariant.dfy`, `DispatcherSteps.dfy`, `DispatcherTheorems.dfy`, `DispatcherAnswers.dfy`, `DispatcherLimits.dfy` | its invariant, why every step keeps it, what follows for whole runs, why every answer and every status is the one it is, and exactly when two promises fail |
| `Lifecycle.dfy` | `start`, its rollback and `stop` as scripts of calls, and the runtime as a class whose loops make exactly those calls |
| `DataPlane.dfy`, `Processing.dfy` | the raw queue drained through the pipeline into the publishers, as steps and as the loops of the worker |
| `Gateway.dfy`, `GatewayInvariant.dfy`, `GatewayTheorems.dfy`, `GatewayPolls.dfy`, `GatewayProgress.dfy`, `GatewayTermination.dfy` | the whole runtime: lifecycle, dispatcher, scheduler thread, data plane, concurrent callers of `stop`; safety, no loss between drivers and publishers, freedom from deadlock and termination of every shutdown |
| `PeriodicSource.dfy`, `PeriodicSourceProof.dfy`, `PeriodicSourceEnds.dfy` | a control source running inside the gateway, with its callbacks on two threads, and why its `stop` returns |

**Sequential code** is imperative: classes with the original's fields and loops, each method proved against a
function or relation of its input and old state.

| file | what it holds |
|---|---|
| `Fifo.dfy` | the bounded queue as a value, and `BoundedQueue` and `ControlQueue` as classes with their histories |
| `Scheduler.dfy` | the fixed-interval policy, the engine loop, and whole runs of it |
| `Json.dfy`, `Events.dfy`, `EventJson.dfy` | a JSON printer and an RFC 8259 reader with their round trip; the event printer's loops and a decoder |
| `Window.dfy` | the sliding-window average against each device's whole history |
| `Config.dfy`, `ConfigDocuments.dfy`, `ConfigRoundTrip.dfy`, `Startup.dfy` | the configuration parser, exactly which documents it reads as what and which configurations it can return, and why everything built from one succeeds |
| `Registry.dfy` | plugin loading and creation |

Where the proofs rest on how things are represented:

- In `Dispatcher`, `pcs` gives each calling activity its program counter; a `submit` made from inside a callback is
  an activity of its own, so callbacks may re-enter `submit`. `submit` is several separate steps, and the worker can
  complete an operation before `accepted` is counted. The order of acceptance, taking, cancelling and completing is
  recorded in ghost sequences. `Sweep(false)` is `cancel_pending` failing to allocate, `Throw` is an allocation
  failure inside `try_push`, `Fail` is a failing thread join. A driver may return any result or throw.
- In `Gateway`, the thread inside `start` or `stop` walks a script, and its j-th call lasts for as long as the model
  stays at position j, so "from the moment stop is called" includes the time the call takes. Drivers may push
  batches at any time, before, during and after shutdown.
- In `PeriodicSource`, `pending` is an unbounded integer, so that not going below zero is something to prove.

## Assumptions

- The clock is monotone and time is an unbounded integer. `time_point::max()` is a deadline that is never reached.
- Plain counters are unbounded; the saturating counters of the scheduler are capped at 2^64-1.
- Creating and joining threads does not fail, except that `start` may fail at any of its calls and the
  dispatcher's own `join` may throw.
- Completion callbacks return, and do not call `stop` or `join` on the dispatcher. They may call `submit`.
- Normalizing a batch never throws. A processor may do anything, and is skipped when it throws.
- A driver's or publisher's `configure` does not throw.
- Doubles are reals in the window and the configuration, and opaque text in the event printer.
- Characters are bytes.

## Where the code promises less than one might expect

**A call that succeeds may begin at its deadline or later.** The check before the driver call and the call itself are
separate, so the clock may pass in between. `DispatcherLimits.LateSuccessIff` says for which requests this can
happen: exactly those with a deadline that lies in the future when the dispatcher is created.

**After the stop critical section more than one driver call may begin.** A failing `cancel_pending` leaves pending
operations to the worker. They are completed once like all others, but the driver may be called for each of them.
`DispatcherLimits.OneMoreCallIff` says when: the bound of one more call holds if and only if nothing was left behind.

**An event with a double cannot be read back.** JSON has no type for one; `EventJson.DoublesCollide` gives, for every
integer, two events with the same text.

**A library that fails to open stays claimed.** `PluginRegistry` assigns a library to a plugin type before opening it,
so after an exception that one library has an owner without a source. `Registry.PluginRegistry.LoadDynamicPlugins`
says that nothing else is amiss.

## Model

| member | source | states |
|---|---|---|
| `RawQueue.BoundedQueue.TryPush` | include/gateway/bounded_queue.hpp:38-51 | A closed queue answers Closed and a full one Full, changing nothing but the count of full refusals; otherwise the value goes to the back, and the history of accepted values grows by exactly that value |
| `RawQueue.BoundedQueue.WaitPop` | include/gateway/bounded_queue.hpp:53-62 | Hands out the oldest value, or, when closed and empty, nothing: then everything ever accepted has been handed out, in order |
| `RawQueue.BoundedQueue.CloseQueue` | include/gateway/bounded_queue.hpp:64-70 | Closes for good without losing an accepted value |
| `ControlQueues.ControlQueue.TryPush` | src/core/control.cpp:40-60 | As for the raw queue, and the high-water mark never exceeds the capacity; refines the abstract queue the dispatcher model steps |
| `ControlQueues.ControlQueue.WaitPop` | src/core/control.cpp:62-71 | Takes the oldest operation; accepted = taken + cancelled + queued is kept through the history |
| `ControlQueues.ControlQueue.CancelPending` | src/core/control.cpp:81-93 | Either fails before anything is popped, leaving the queue untouched, or returns exactly the queued operations in order, leaves the queue empty and counts each of them |
| `DispatcherSteps.InvStep` | src/core/control.cpp:128-459 | Every critical section, clock reading and foreign call of the dispatcher, by any thread, keeps the whole invariant: who holds the lock, who stops, who joins, where each accepted operation is, and what every counter means |
| `DispatcherSteps.RunInv` | src/core/control.cpp:128-459 | The invariant holds in every state of every run, for any number of callers |
| `DispatcherTheorems.ExactlyOnce` | src/core/control.cpp:140-167 | An operation completes at most once; only an accepted one completes; a submit that returned anything else, or threw, is never completed; after join every accepted one has completed exactly once, also when cancel_pending could not allocate |
| `DispatcherTheorems.Places` | src/core/control.cpp:287-292 | Every accepted operation is in exactly one place: completed, in the worker's hand, in the undelivered rest of the cancel batch, or queued |
| `DispatcherTheorems.StopBarrier` | src/core/control.cpp:169-216 | Whenever join returns normally to any caller, the worker has exited, the queue is closed and empty, every accepted operation has completed once and its callback has returned; this stays so for the rest of the run, and exactly one thread joined the worker |
| `DispatcherTheorems.OneJoiner` | src/core/control.cpp:177-191 | Two threads are never inside worker_.join() together |
| `DispatcherTheorems.FifoSplit` | src/core/control.cpp:140-160 | The worker has always taken a prefix of the accepted sequence, and a successful cancel_pending cancels exactly the remaining suffix |
| `DispatcherTheorems.DriverCalls` | src/core/control.cpp:385-390 | Driver calls are a subsequence of the operations taken, and after the stop critical section at most one more begins than the operations a failed cancel_pending left behind |
| `DispatcherLimits.OneMoreCallIff` | src/core/control.cpp:140-160 | From every initial state with a caller and for every n the queue can hold: 'at most one more driver call after the stop critical section' holds in all runs whose sweep leaves n operations behind if and only if n is zero |
| `DispatcherLimits.CallsAfterFailedSweep` | src/core/control.cpp:149-155 | For every such n some run has cancel_pending fail with n operations pending, and the driver is then called n + 1 more times |
| `DispatcherTheorems.Conservation` | src/core/control.cpp:218-276 | In every state: queue accepted = taken + cancelled + queued; the dispatcher's accepted lags it by at most one; submitted = the five outcomes + allocation failures + calls in progress, each outcome counted under the value returned; executed is the number of driver calls and each status counter the number of completions with that status; outside the stop critical section the queue is closed exactly when stopping_ is set, so submit never counts a Stopping from the queue; after join the six statuses sum to accepted |
| `DispatcherTheorems.DeadlineSoundness` | src/core/control.cpp:294-420 | Every completion carries its own request id; without an answer from the driver it is Cancelled, Timeout or Failed, with one it is that answer unless the deadline has passed, then Timeout; Succeeded implies a clock check strictly before the deadline, then the call, then a check not past it; an operation expired when taken never reaches the driver |
| `DispatcherAnswers.VerdictsHaveCauses` | src/core/control.cpp:318-403 | In every run a completion the worker delivers without the driver's answer is Failed only if, for that operation, the driver or the gate was not found or the driver threw, and Timeout only if a clock reading found its deadline reached or the wait for its gate timed out |
| `DispatcherAnswers.AnswersAreReplies` | src/core/control.cpp:385-397 | A completion with an answer has it from a return of the driver for that operation, at the time it records |
| `DispatcherAnswers.VerdictsStand` | src/core/control.cpp:318-411 | And the other way: once the worker has found no driver, no gate or an exception, an expired deadline, a gate that timed out, or an answer, that operation completes, whenever it does, as Failed, as Timeout, or with that answer unless the clock is strictly past the deadline |
| `DispatcherAnswers.CallbackIffSupplied` | src/core/control.cpp:447-458 | Whenever an operation completes, the completing thread is at once in its callback if and only if the submitter supplied one |
| `DispatcherAnswers.EveryAnswer` | src/core/control.cpp:218-276 | Every answer of submit was given at a step that found its cause: InvalidRequest an empty device id or command; Stopping a dispatcher not started or stopping; UnknownDevice one started and not stopping, and no driver; QueueFull an open queue at capacity; Accepted one below it |
| `DispatcherAnswers.AnswersStand` | src/core/control.cpp:218-276 | And the other way: a call of submit that finds such a cause is answered so, for good |
| `DispatcherAnswers.InvalidIffNameless` | src/core/control.cpp:226-230 | A call of submit that has ended was answered InvalidRequest if and only if its device id or its command is empty |
| `DispatcherLimits.LateSuccessIff` | src/core/control.cpp:374-399 | From every initial state with a caller, with or without gates: some run answers a valid request Succeeded with a call that did not begin before its deadline if and only if the request has a deadline and it lies in the future |
| `DispatcherTheorems.LockDiscipline` | src/core/control.cpp:341-383 | The driver is called only while the worker owns that device's gate; the worker owns no gate when it completes an operation; a cancellation callback runs on a thread that does not hold the lifecycle lock |
| `DispatcherTheorems.LockHolderCanStep` | src/core/control.cpp:232-275 | Whoever holds the lifecycle lock can always take its next step, so the lock is always given back |
| `DispatcherTheorems.ShutdownEnds` | src/core/control.cpp:140-167 | After the stop critical section the worker and the stopping thread take at most a computed number of further steps, whatever everyone else does, and that number is zero exactly when shutdown is over |
| `DispatcherTheorems.ShutdownMoves` | src/core/control.cpp:287-292 | Until then one of them can take a step without giving up on a gate, unless the worker waits for a gate that a poll holds |
| `Dispatcher.CountStatus` | src/core/control.cpp:427-446 | Each completion adds one to the counter of its status, and to no other |
| `Dispatcher.CountOutcome` | src/core/control.cpp:257-273 | Each returned outcome adds one to the counter of that outcome, and to no other |
| `Lifecycle.RollbackStopsWhatStarted` | src/core/runtime.cpp:119-168 | For every call of start() that can throw, the plugins of each kind that get stop() are exactly those whose start() was called, the throwing one included, each once and in reverse order; the same sources get request_stop() |
| `Lifecycle.ShutdownOrder` | src/core/runtime.cpp:183-250 | In every shutdown, complete or rollback: sources are asked to stop before the scheduler and dispatcher are joined, and every stop() of a plugin comes after; no driver is stopped before every source is; the raw queue is closed only after every source and every driver of the plan has been stopped; publishers stop only after the queue is closed and the processing worker joined |
| `Lifecycle.StagesInOrder` | src/core/runtime.cpp:183-245 | The calls of every shutdown come in the order: ask sources, stop and join the scheduler, stop and join the dispatcher, stop sources, stop drivers, close the raw queue, join the processing worker, stop publishers |
| `Lifecycle.StartInOrder` | src/core/runtime.cpp:76-117 | The calls of start() come in the order: publishers, drivers, dispatcher, processing worker, accepting controls, sources, creating and starting the scheduler |
| `Lifecycle.StopStopsEverything` | src/core/runtime.cpp:211-245 | stop() stops every publisher and source once, backwards, and every driver once, all Push drivers before any Poll driver |
| `RuntimeLifecycle.GatewayRuntime.StartRuntime` | src/core/runtime.cpp:65-168 | Makes every call of the start script, or the calls up to the first that throws followed by the rollback for that point; a second start makes none and reports an error |
| `RuntimeLifecycle.GatewayRuntime.RollBack` | src/core/runtime.cpp:119-158 | The handler's loops over its counters make exactly the shutdown script those counters call for |
| `RuntimeLifecycle.GatewayRuntime.StopRuntime` | src/core/runtime.cpp:170-252 | Makes the full shutdown script when running and no call at all before start or after an earlier stop or rollback |
| `GatewayInvariant.InvStep` | src/core/runtime.cpp:65-421 | Every step of any thread of the gateway keeps the invariant tying the calls made so far to the scripts, each part's state to how far start() got, each finished shutdown call to its lasting effect, and each gate held by a poll to the scheduler thread |
| `GatewayInvariant.DispatcherRun` | src/core/runtime.cpp:30-42 | Every run of the gateway contains a run of the dispatcher ending in the same dispatcher state, so all dispatcher results hold inside the gateway |
| `GatewayTheorems.NothingActiveAfterStop` | src/core/runtime.cpp:170-252 | In every run, from the moment a source's stop() is called no completion callback runs; from the moment a driver's is, no poll or control runs on any driver; from the moment a publisher's is, no publish runs - for stop() and for every rollback, for the rest of the run |
| `GatewayTheorems.StopReturnsWhenDone` | src/core/runtime.cpp:170-181 | However many threads call stop(), and even during a rollback, stop() on a runtime whose start() was called returns only when the shutdown is over and all threads are gone; after that no lifecycle call is ever made again |
| `GatewayTheorems.StoppedOnce` | src/core/runtime.cpp:211-245 | At the end of every run that started successfully, the calls of stop() made over the runtime's whole life are each plugin exactly once, in the order promised |
| `GatewayTheorems.RolledBackOnce` | src/core/runtime.cpp:119-168 | At the end of every run whose start failed, the plugins stopped over the runtime's whole life are exactly those started, in reverse order |
| `GatewayTheorems.NoLossBeforePublishersStop` | src/core/runtime.cpp:234-245 | When a publisher is first asked to stop and the processing worker was ever started, every batch the raw queue accepted has been delivered and offered once to every publisher, in acceptance order, and no more can be accepted |
| `GatewayTheorems.NoLossAtEnd` | src/core/runtime.cpp:385-421 | When the runtime is over after a start that got as far as the processing worker: delivered = accepted, attempts = delivered x publishers = accepted + unavailable + rejected + errors |
| `GatewayPolls.PollsAreOffered` | src/core/runtime.cpp:369-378 | In every state of every run the batches that polls have returned are those the scheduler thread has handed to the raw queue, in order, and the one it is about to hand over; none is left over once it rests or has ended |
| `GatewayPolls.OfferedEnters` | src/core/runtime.cpp:374-374 | A batch handed over by the scheduler thread or delivered by a driver goes to the end of the raw queue unless the queue is closed or full |
| `GatewayPolls.PollsAreCounted` | src/core/runtime.cpp:352-383 | Every poll begun is counted once, as polled, as an error or as a gate not had in time, unless it is going on; late returns are further deadline misses; a full open queue, and only that, counts as full |
| `GatewayPolls.QueueOpenUntilDriversStopped` | src/core/runtime.cpp:205-227 | In every run the raw queue is open until the stop() of every source and every driver that the shutdown stops has returned |
| `GatewayTheorems.AdmittedOnlyWhileOpen` | src/core/runtime.cpp:254-263 | A thread passes the check of submit_control only after start() began to accept controls and before any shutdown or rollback began |
| `GatewayTheorems.DeviceExclusion` | src/core/runtime.cpp:358-374 | In every reachable state at most one of poll and control is active on a device |
| `GatewayProgress.ShutdownNeverStuck` | src/core/runtime.cpp:170-252 | In every state of every shutdown its current call can return, or a thread that call waits for can take a step that is neither new outside work nor giving up on a gate: for the scheduler thread itself or the holder of the gate it wants, for request_stop the stopping thread, for join that thread or the worker, for the data plane its worker, and before any of the dispatcher's the holder of its lifecycle lock |
| `GatewayProgress.JoinerCanMove` | src/core/control.cpp:169-204 | While the runtime waits in join and the lifecycle lock is free, join itself can go on or the worker can, without giving up on a gate |
| `GatewayProgress.PollerCanMove` | src/core/runtime.cpp:352-383 | While the runtime waits for the scheduler thread, that thread can go on, or it waits for a gate held by a control request and the dispatcher's worker can |
| `GatewayProgress.ProcessorCanMove` | src/core/runtime.cpp:385-421 | While the runtime waits for the processing worker, that worker can go on |
| `GatewayTermination.MeasureFalls` | src/core/runtime.cpp:170-252 | During a shutdown every step of the lifecycle, dispatcher, scheduler thread or processing worker that brings no new work from outside lowers one measure over script position, submits in progress, queue, cancel batch, join, poll and batches |
| `GatewayTermination.ShutdownIsBounded` | src/core/runtime.cpp:170-252 | In every run, once a shutdown has begun, these threads take at most Measure further steps before new work comes from outside, whatever waiting callers and the clock do |
| `GatewayTermination.ShutdownCanFinish` | src/core/runtime.cpp:170-252 | From every state of every shutdown, whatever has happened before, these threads alone can bring it to its end |
| `GatewayTermination.CallersReturn` | src/core/runtime.cpp:178-181 | When the shutdown is over the thread that did the work has returned and every thread waiting in stop() can return |
| `DataPlane.InvStep` | src/core/runtime.cpp:385-421 | Every push, pop, publish attempt and answer keeps: accepted = delivered + in hand + queued in order, offers = the fan-out of the delivered events, each counter = the number of events it stands for |
| `DataPlane.DrainedLosesNothing` | src/core/runtime.cpp:385-397 | When the processing worker has exited, nothing the queue accepted is missing, reordered or offered twice |
| `Processing.ProcessingWorker.PublishEvent` | src/core/runtime.cpp:399-421 | The loop offers the event to each publisher once, in order, and the counters keep their meaning whatever each publisher answers or throws |
| `Processing.ProcessingWorker.ProcessBatches` | src/core/runtime.cpp:385-397 | With other threads pushing between its turns until the queue is closed, the loop ends with nothing lost and every batch turned into the event processing makes of it, in order |
| `PeriodicSourceProof.PendingCountsOpen` | tests/simulation/periodic_control_source.cpp:103-136 | In every run, pending_ equals the requests not yet subtracted; a request is subtracted only after it completed or was refused, and one that completed or was refused is subtracted already, or its callback is running, or its refusal is on the way to the source's worker |
| `PeriodicSourceProof.NeverUnderflows` | tests/simulation/periodic_control_source.cpp:130-136 | No decrement ever happens at zero, although callbacks run on the worker and on the cancelling thread while submit may still be in progress |
| `PeriodicSourceProof.StopDoesNotBlock` | tests/simulation/periodic_control_source.cpp:73-81 | Once the dispatcher is joined or was never started, in particular whenever the runtime has begun to stop a source, and the source's worker has ended, pending_ is zero: the wait in stop() is already over |
| `PeriodicSourceEnds.StopReturns` | tests/simulation/periodic_control_source.cpp:65-81 | While the runtime is inside this source's stop(), its worker has been asked to end; if the worker has ended, nothing is pending and stop() can return; if not, the worker, its call of submit or the holder of the lock that call needs can take a step |
| `PeriodicSourceEnds.WorkerEndsSoon` | tests/simulation/periodic_control_source.cpp:84-101 | Once asked to end, the worker takes at most five more steps of its own |
| `PeriodicSourceEnds.AskedBeforeStop` | src/core/runtime.cpp:185-215 | When the runtime calls a source's stop(), that source's worker has been asked to end, or never began |
| `PeriodicSourceEnds.DeclineDecides` | tests/simulation/periodic_control_source.cpp:84-131 | After a refused submission the worker goes on, unless the answer was Stopping or the submission threw: then it ends |
| `PeriodicSourceProof.DispatcherKeeps` | tests/simulation/periodic_control_source.cpp:103-136 | Every step of the dispatcher keeps the source's bookkeeping of each of its requests; this is where completing exactly once is needed |
| `Scheduler.SaturatingAdd` | src/core/scheduler.cpp:18-21 | The sum capped at 2^64-1, computed without overflow |
| `Scheduler.FixedIntervalSequentialPolicy.SelectDue` | src/core/scheduler.cpp:46-61 | Nothing exactly when no task is due, otherwise the earliest due task by due time, stable order and position |
| `Scheduler.FixedIntervalSequentialPolicy.NextWakeup` | src/core/scheduler.cpp:63-77 | The least due time of any task, or none when there are no tasks |
| `Scheduler.SleepsOnlyWhenIdle` | src/core/scheduler.cpp:145-160 | Nothing is due if and only if there is no wake-up or it lies in the future |
| `Scheduler.WakesForTheFirst` | src/core/scheduler.cpp:145-160 | After a turn of the loop that sleeps, the next turn polls a task if and only if it begins at or after the wake-up, and then one that falls due at that time: the loop never sleeps past due work |
| `Scheduler.LeastLaterGridPoint` | src/core/scheduler.cpp:79-88 | on_complete moves a task to the least later point of its grid strictly after the finishing time |
| `Scheduler.FixedIntervalSequentialPolicy.OnComplete` | src/core/scheduler.cpp:79-88 | The catch-up loop terminates and has exactly that effect, counting skipped cycles up to the cap; no other task changes |
| `Scheduler.Validate` | src/core/scheduler.cpp:25-44 | Accepts exactly the task lists with non-empty distinct ids and positive intervals |
| `Scheduler.SchedulerEngine.TakeTurn` | src/core/scheduler.cpp:145-189 | One turn of the engine loop, statistics included, is one turn of the run relation the other results are about; it sleeps exactly when nothing is due, until the least due time of any task, which lies in the future |
| `Scheduler.SchedulerEngine.Run` | src/core/scheduler.cpp:145-190 | The loop goes through a run of that relation |
| `Scheduler.GridOverRun` | src/core/scheduler.cpp:79-88 | After every turn of every run each due time = first due time + interval x (executions + true skips), executed is the sum of executions, and skipped_cycles is the true total capped at 2^64-1 |
| `Scheduler.StatsOverRun` | src/core/scheduler.cpp:162-186 | After every turn of every run: errors = the polls that threw; lateness and duration = the sums over all polls of how late they began and how long they took, never negative, capped at 2^64-1 |
| `Scheduler.OvertakenOnce` | src/core/scheduler.cpp:46-88 | A task that is due is overtaken by each other task at most once: the one polled is moved past it |
| `Scheduler.NoStarvation` | src/core/scheduler.cpp:46-88 | With a monotone clock a due task is selected after at most n-1 other polls |
| `Scheduler.SelectedWithin` | src/core/scheduler.cpp:46-88 | It is selected after at most as many other polls as there are tasks due no later than it |
| `JsonRoundTrip.TextReads` | src/publisher/mqtt/mqtt_event_publisher.cpp:39-76 | An escaped string is self-delimiting: a reader recovers it and stops exactly at its closing quote, whatever follows |
| `JsonRoundTrip.NumberReads` | src/publisher/mqtt/mqtt_event_publisher.cpp:83-84 | Decimal printing of every integer is inverted by the reader |
| `JsonRoundTrip.RoundTrip` | src/publisher/mqtt/mqtt_event_publisher.cpp:39-106 | Reading a printed tree by sections 5 to 7 of RFC 8259 gives back exactly that tree and consumes all of the text |
| `JsonRoundTrip.StandardEscapes` | src/publisher/mqtt/mqtt_event_publisher.cpp:39-76 | The reader takes every two-character escape of section 7 of RFC 8259 for the character that section names, so the encoder's escapes are the standard's |
| `JsonRoundTrip.StandardNames` | src/publisher/mqtt/mqtt_event_publisher.cpp:78-92 | And null, true and false for what section 3 says |
| `EventJson.QualityBack` | src/core/model.cpp:63-79 | Quality names are distinct: each is read back to its quality |
| `EventJson.QualityNames` | src/core/model.cpp:63-79 | The name of each quality |
| `EventJson.EventFields` | src/publisher/mqtt/mqtt_event_publisher.cpp:414-446 | Every field of an event is written under its own name |
| `EventJson.ReadingFields` | src/publisher/mqtt/mqtt_event_publisher.cpp:422-443 | Every field of a reading is written under its own name |
| `EventJson.EventRoundTrip` | src/publisher/mqtt/mqtt_event_publisher.cpp:414-446 | The text of an event whose values are integers, booleans, strings or byte arrays is decoded to exactly that event; with a double in it, it is not |
| `EventJson.DoublesCollide` | src/publisher/mqtt/mqtt_event_publisher.cpp:83-89 | An event with an integer and the same event with a double that prints like it are different and have the same text, so no decoder at all recovers both |
| `EventJson.AppendString` | src/publisher/mqtt/mqtt_event_publisher.cpp:39-76 | Appends the quoted, escaped value and nothing else |
| `EventJson.AppendScalar` | src/publisher/mqtt/mqtt_event_publisher.cpp:78-106 | Appends the text of the tree the scalar stands for, byte arrays as lists of numbers |
| `EventJson.EventToJson` | src/publisher/mqtt/mqtt_event_publisher.cpp:414-446 | What the printer's loops write is the text of the event's tree, and so decodes to that event if and only if it holds no double |
| `Windows.WindowAverageProcessor.Process` | src/processor/window_average_processor.cpp:39-62 | Over any sequence of events of any mix of devices each device's deque is the last min(n, window) good numeric inputs of that device's history; the event is returned with an average appended exactly when it contributed an input and n has reached window, and the average is the mean of that stretch of history |
| `Windows.TracksPush` | src/processor/window_average_processor.cpp:50-53 | Sliding one device's deque keeps every device's deque equal to the end of its own history |
| `Windows.WhatCounts` | src/core/model.cpp:16-40 | An event adds to its device's history what its first reading of the point counts for when that reading is good: an integer or double its value, a boolean 1 or 0, a text the number it spells, bytes nothing |
| `Windows.WhatIsOwed` | src/processor/window_average_processor.cpp:54-62 | Once the device has contributed a whole window, and not before, the mean of its last numbers is owed under the output's name, good, derived, and with the times of the reading that completed it |
| `Windows.HistoryOfOwnEvents` | src/processor/window_average_processor.cpp:50-50 | A device's history, and so its window, does not depend on other devices' events |
| `Windows.FirstOf` | src/core/model.cpp:81-88 | find_reading: the first reading of that point |
| `Config.ParsePoints` | src/core/config.cpp:332-350 | Succeeds exactly when every value reads as a point and no name repeats, and returns those points in order |
| `Config.ParseDevices` | src/core/config.cpp:300-352 | Succeeds exactly when some list of devices can be read from the values, returns it, and fills the table of point names with it |
| `Config.StringArray` | src/core/config.cpp:235-256 | Succeeds exactly on a non-empty array of distinct non-empty strings, and returns them |
| `Config.ParseGroups` | src/core/config.cpp:354-390 | Succeeds exactly when every value reads as a group with a known device and only that device's points, ids distinct, and returns those groups |
| `Config.ParsePlugins` | src/core/config.cpp:392-424 | Succeeds exactly when the list is absent and optional, or every value reads as a plugin and ids are distinct, and returns those plugins |
| `Config.ParseApplication` | src/core/config.cpp:426-457 | Returns a configuration if and only if one can be read from the document, and then that one |
| `ConfigDocuments.PointRead` | src/core/config.cpp:278-298 | A point is read from a value if and only if the value has exactly the fields that describe it: names, one of six type names, a map of texts, numbers that may be integers, bounds that may be absent or null, in order |
| `ConfigDocuments.PluginRead` | src/core/config.cpp:392-424 | A plugin is read from a value if and only if its fields describe it; enabled may be left out and is then true |
| `ConfigDocuments.RuntimeRead` | src/core/config.cpp:426-445 | The capacities are read if and only if the document holds them in range; the control queue may be left out and then holds 64, and the run duration may be absent or null |
| `ConfigDocuments.DocumentRead` | src/core/config.cpp:278-457 | A configuration is read from a document if and only if the document describes it, field by field |
| `ConfigRoundTrip.ParsedIffWellFormed` | src/core/config.cpp:278-457 | The configurations the parser can return are exactly the well-formed ones: names present and distinct, ranges, sizes and times in bounds, groups referring only to points of their device |
| `ConfigRoundTrip.DocumentBack` | src/core/config.cpp:278-457 | Every well-formed configuration has a document from which the parser recovers it, field by field |
| `ConfigRoundTrip.PointBack` | src/core/config.cpp:278-298 | parse_point recovers every field of a point written as JSON |
| `Startup.BuildNormalizer` | src/core/normalizer.cpp:96-119 | The constructor accepts exactly the device lists with non-empty distinct ids and fitting points, and then indexes every point of every device |
| `Startup.ValidateAndConfigure` | src/core/runtime.cpp:296-350 | The loops of the runtime's validation accept exactly: one present driver per known device, groups with distinct ids, positive times and a polling driver, and present publishers with distinct ids |
| `Startup.AcceptedIsTotal` | src/core/config.cpp:300-457 | For every document the parser accepts, both queues, the normalizer and the schedule policy can be built, and with one non-null instance per device and enabled publisher the runtime's validation rejects it if and only if a group belongs to a device whose driver pushes |
| `Startup.Lookup` | src/core/runtime.cpp:352-363 | In a runtime that passed validation, every task finds its own group and a polling driver of that group's device, hence its gate |
| `Startup.GroupsOnGrid` | src/core/runtime.cpp:100-112 | In every run of the engine start() creates, each group is first due one interval of its own after the start, stays on that grid, and takes its place in the configuration as its order among ties |
| `Registry.SourceKeyInjective` | src/core/plugin_registry.cpp:334-351 | Different categories or types never share a source key |
| `Registry.PluginRegistry.Register` | src/core/plugin_registry.cpp:26-38 | Registers a type once: an empty type, an empty factory or a type registered before is refused and changes nothing |
| `Registry.PluginRegistry.FindOrOpen` | src/core/plugin_registry.cpp:450-468 | A library is opened only if it is not in the list yet, and is then added once; it is available if and only if its name is a filename with a suffix and it was open before or opens now; the error says which failed |
| `Registry.PluginRegistry.LoadOne` | src/core/plugin_registry.cpp:485-523 | Succeeds if and only if the type has a factory and no library is named, or has this library already, or is new and comes with a usable library of its own: not claimed by another type, validly named, open or opening, exporting both symbols; each failure has its own error. Afterwards the maps are mutual inverses, or, after an error, so up to the one library it claimed; earlier factories and sources are untouched |
| `Registry.PluginRegistry.LoadDynamicPlugins` | src/core/plugin_registry.cpp:442-652 | Succeeds if and only if it is the first call and every device and enabled plugin suits the built-in factories, the libraries and the plugins before it; otherwise the first that does not decides the error. Then every one of them has its factory, from its library if it names one, and every library was opened once; after an error the maps are intact up to the library of the plugin it stopped at; a second call is an error and registers nothing |
| `Registry.PluginRegistry.CreateAll` | src/core/plugin_registry.cpp:654-723 | Fails only if a type is unknown or a factory fails, and otherwise makes one instance for each plugin, in order, from the factory of its type |
| `Registry.PluginRegistry.Create` | src/core/plugin_registry.cpp:654-723 | One driver per device and one instance per enabled plugin, in configuration order; after loading the same configuration no type is unknown, and with working factories it succeeds |
| `Registry.CreatedSuitsRuntime` | src/core/plugin_registry.cpp:654-723 | What create returns for an accepted configuration passes the runtime's validation if and only if no group belongs to a device whose driver pushes |

## Left out

- The Paho client, connecting and reconnecting in `src/publisher/mqtt/mqtt_event_publisher.cpp`: a foreign library and the network.
- `dlopen`, symbol lookup and the `Loaded*` adapters in `src/core/plugin_registry.cpp`: opening a library and finding its symbols are inputs that may fail.
- Parsing JSON text by nlohmann::json and reading configuration files: the configuration starts from a JSON value. Error texts and the paths in them are reduced to a kind of error.
- Conversion of values in `src/core/normalizer.cpp` (`convert_value`): floating-point detail. Number formatting of doubles and `from_chars`: the first is opaque text, the second a parameter.
- `queue_wait_ns` and `execution_ns` of the dispatcher: sums over clock differences that nothing else depends on. Whether a poll returns late is a choice of the model, and its counters move with `try_push`, not a moment later.
- Fairness of mutexes and condition variables, spurious wake-ups and memory ordering: every atomic access and critical section is one step, and a thread that may take a step need not.
- That a gate wait ends by its deadline: the model may give up waiting at any time, or never.
- The text of request ids and the round robin over devices in the periodic source; its `interval` wait.
- Simulators, the print publisher, `ThresholdProcessor`, `InferenceProcessor`, `src/main.cpp`: glue or one-branch behaviour.
- Comparison of file paths by components in the plugin registry: paths are compared as strings, and file names follow POSIX.
- The four factory maps of the registry are one map under category and type.
- RuntimeLifecycle.GatewayRuntime.StopRuntime: one caller at a time; overlapping callers of `stop` and `start` are the subject of `GatewayTheorems.StopReturnsWhenDone`.
- DispatcherTheorems.ShutdownEnds, GatewayTermination.ShutdownIsBounded: count steps, and assume nothing about how long a driver call or a callback takes.
