module Options {
  datatype Option<+T> = None | Some(value: T)
}

/** Requests, results and clocks of include/gateway/control.hpp. */
module ControlTypes {
  /** ControlClock::time_point; Never is time_point::max(), which no clock reading reaches. */
  datatype Deadline = Never | At(time: int) {
    predicate Reached(now: int) { At? && time <= now }
    predicate Passed(now: int) { At? && time < now }
  }

  /** A request together with whether the submitter supplied a completion callback. */
  datatype Request = Request(requestId: string, deviceId: string, command: string,
                             deadline: Deadline, hasCompletion: bool)

  predicate ValidRequest(r: Request) {
    r.deviceId != "" && r.command != ""
  }

  datatype Status = Succeeded | Unsupported | InvalidArgument | Timeout | Cancelled | Failed

  datatype Result = Result(requestId: string, status: Status)

  datatype SubmitResult = Accepted | QueueFull | UnknownDevice | InvalidRequest | Stopping
}

/**
  DeviceControlDispatcher of src/core/control.cpp as a step relation. One step is one critical
  section, one clock reading or one call into foreign code. `pcs` holds any number of calling
  activities; a submit made from inside a callback is an activity of its own.
  The worker thread is separate and never takes the lifecycle lock.
*/
module Dispatcher {
  import opened Options
  import opened ControlTypes
  import opened Fifo

  type Tid = nat
  type OpId = nat  // position in `subs`: one id for every call of submit

  /** What a call of submit ended with; an allocation failure in the queue propagates. */
  datatype Outcome = Returned(result: SubmitResult) | Threw

  datatype Pc =
    | Idle
    | Submitting(id: OpId)                        // counted as submitted
    | Pushing(id: OpId)                           // lifecycle lock held, driver resolved
    | Counting(id: OpId, result: SubmitResult)    // lock held, queue has answered
    | StopMarked                                  // lock held, stopping_ set
    | StopClosed                                  // lock held, queue closed
    | Delivering(next: nat)                       // lock free, cancelled[next..] still to complete
    | CancelCallback(next: nat)                   // callback of cancelled[next] running
    | JoinWaiting
    | Joining                                     // blocked in worker_.join()

  /** One call of driver->control: the operation, its position in the order of taking, and when it
      was taken, last checked against its deadline, and begun. */
  datatype DriverCall = DriverCall(id: OpId, position: int, takenAt: int, checkedAt: int, beganAt: int)

  datatype Worker =
    | NotStarted
    | Waiting
    | Held(id: OpId, takenAt: int)                // popped, driver not resolved yet
    | AtGate(id: OpId, takenAt: int)              // waiting for the device's I/O gate
    | Gated(id: OpId, takenAt: int)               // gate held
    | Cleared(id: OpId, takenAt: int, checkedAt: int)
    | Calling(call: DriverCall)                         // inside driver->control, gate held
    | Releasing(done: Completion)                 // gate still held
    | Finishing(done: Completion)                 // no gate held
    | InCallback(id: OpId)
    | Exited

  datatype Agent = TheWorker | TheStopper

  /** A completed operation; `call` and `answer` are present when the driver was called and returned a status. */
  datatype Completion = Completion(
    id: OpId, result: Result, agent: Agent, call: Option<DriverCall>, answer: Option<Status>, endedAt: int)

  datatype Holder = ByControl | ByPoll

  /** lifecycle_mutex_ and what it guards; `stopper`, `joiner` and `joins` record who did what. */
  datatype Life = Life(
    lock: Option<Tid>, started: bool, stopping: bool, stopComplete: bool, joinInProgress: bool, joined: bool,
    stopper: Option<Tid>, joiner: Option<Tid>, joins: nat)

  /** Every call of submit: its request, who is still executing it, and what it was answered.
      A call has returned once it has an outcome and is no longer active; `answers` lists the results. */
  datatype Subs = Subs(requests: seq<Request>, active: map<OpId, Tid>, outcomes: map<OpId, Outcome>,
                       answers: seq<SubmitResult>, threw: nat)

  /** Where accepted operations have been, and whether cancel_pending has run (leaving `leftover` behind). */
  datatype Flow = Flow(
    accepted: seq<OpId>, taken: seq<OpId>, cancelled: seq<OpId>, workerDone: seq<OpId>,
    cancelCounted: nat, cancelDone: nat, swept: bool, leftover: nat, callsAtSweep: nat)

  /** The submission half of ControlStats. */
  datatype Tally = Tally(
    submitted: nat, accepted: nat, queueFull: nat, unknownDevice: nat, invalidRequests: nat, stopping: nat)

  /** The execution half of ControlStats. */
  datatype Statuses = Statuses(
    executed: nat, succeeded: nat, unsupported: nat, invalidArgument: nat, timeouts: nat, cancelled: nat, failed: nat)

  datatype State = State(
    life: Life, pcs: seq<Pc>, worker: Worker, q: Queue<OpId>, subs: Subs, flow: Flow,
    done: seq<Completion>, calls: seq<DriverCall>, tally: Tally, statuses: Statuses,
    gates: map<string, Holder>, clock: int,
    hasGates: bool)  // whether a gate resolver was supplied

  ghost predicate Init(s: State) {
    && (forall t | 0 <= t < |s.pcs| :: s.pcs[t] == Idle)
    && s.life == Life(None, false, false, false, false, false, None, None, 0)
    && s.worker == NotStarted
    && 0 < s.q.capacity && s.q == Queue(s.q.capacity, [], false, 0, 0)
    && s.subs == Subs([], map[], map[], [], 0)
    && s.flow == Flow([], [], [], [], 0, 0, false, 0, 0)
    && s.done == [] && s.calls == [] && s.gates == map[]
    && s.tally == Tally(0, 0, 0, 0, 0, 0) && s.statuses == Statuses(0, 0, 0, 0, 0, 0, 0)
  }

  datatype GateAnswer = GateMissing | GateTimedOut | GateLocked

  /** What driver->control did: return any result at all, or throw. */
  datatype Reply = Replied(result: Result) | Raised

  datatype SubmitAction =
    | Call(request: Request)       // count the submission
    | Reject                       // invalid request
    | Enter(found: bool)           // take the lifecycle lock, check it, resolve the driver
    | Enqueue                      // queue_.try_push
    | Throw                        // queue_.try_push runs out of memory
    | Count                        // count the outcome, release the lock, return

  datatype StopAction =
    | Mark                         // take the lifecycle lock, set stopping_
    | CloseQueue
    | Sweep(reserved: bool)        // cancel_pending, then release the lock
    | CancelOne                    // count Cancelled for the next operation of the batch
    | CancelReturn                 // its callback returns
    | Finish                       // set stop_request_complete_

  datatype JoinAction =
    | Wait
    | Claim                        // set join_in_progress_
    | SeeJoined                    // another thread joined the worker: return
    | Join                         // worker_.join() returned: set joined_, return
    | Fail                         // worker_.join() threw

  datatype WorkerAction =
    | Take | Exit
    | Resolve(found: bool)
    | PassGate(answer: GateAnswer)
    | Recheck
    | Begin                        // count executed, call the driver
    | Return(reply: Reply)
    | Release
    | Complete                     // count the status, invoke the callback
    | CallbackReturn

  datatype Action =
    | Start(t: Tid)
    | Submit(t: Tid, submit: SubmitAction)
    | Stop(t: Tid, stop: StopAction)
    | Join(t: Tid, join: JoinAction)
    | Work(work: WorkerAction)
    | Tick(elapsed: nat)
    | PollLock(device: string)
    | PollUnlock(device: string)

  ghost predicate Known(s: State, id: OpId) {
    id < |s.subs.requests|
  }

  ghost function RequestOf(s: State, id: OpId): Request
    requires Known(s, id)
  {
    s.subs.requests[id]
  }

  /** The call of submit numbered id ends. */
  ghost function Ended(subs: Subs, id: OpId, outcome: Outcome): Subs {
    subs.(active := subs.active - {id}, outcomes := subs.outcomes[id := outcome])
  }

  function Answered(c: Tally): nat {
    c.accepted + c.queueFull + c.unknownDevice + c.invalidRequests + c.stopping
  }

  function Completed(c: Statuses): nat {
    c.succeeded + c.unsupported + c.invalidArgument + c.timeouts + c.cancelled + c.failed
  }

  /** The counter of one outcome. */
  function OutcomeCount(c: Tally, r: SubmitResult): nat {
    match r
    case Accepted => c.accepted
    case QueueFull => c.queueFull
    case UnknownDevice => c.unknownDevice
    case InvalidRequest => c.invalidRequests
    case Stopping => c.stopping
  }

  /** The counter of one status. */
  function StatusCount(c: Statuses, r: Status): nat {
    match r
    case Succeeded => c.succeeded
    case Unsupported => c.unsupported
    case InvalidArgument => c.invalidArgument
    case Timeout => c.timeouts
    case Cancelled => c.cancelled
    case Failed => c.failed
  }

  function CountOutcome(c: Tally, r: SubmitResult): (c': Tally)
    ensures Answered(c') == Answered(c) + 1 && c'.submitted == c.submitted
    ensures forall x :: OutcomeCount(c', x) == OutcomeCount(c, x) + if x == r then 1 else 0
  {
    match r
    case Accepted => c.(accepted := c.accepted + 1)
    case QueueFull => c.(queueFull := c.queueFull + 1)
    case UnknownDevice => c.(unknownDevice := c.unknownDevice + 1)
    case InvalidRequest => c.(invalidRequests := c.invalidRequests + 1)
    case Stopping => c.(stopping := c.stopping + 1)
  }

  function CountStatus(c: Statuses, r: Status): (c': Statuses)
    ensures Completed(c') == Completed(c) + 1 && c'.executed == c.executed
    ensures forall x :: StatusCount(c', x) == StatusCount(c, x) + if x == r then 1 else 0
  {
    match r
    case Succeeded => c.(succeeded := c.succeeded + 1)
    case Unsupported => c.(unsupported := c.unsupported + 1)
    case InvalidArgument => c.(invalidArgument := c.invalidArgument + 1)
    case Timeout => c.(timeouts := c.timeouts + 1)
    case Cancelled => c.(cancelled := c.cancelled + 1)
    case Failed => c.(failed := c.failed + 1)
  }

  function QueueAnswer(r: PushResult): SubmitResult {
    match r
    case Pushed => Accepted
    case Full => QueueFull
    case Closed => Stopping
  }

  /** A completion that never reached the driver. */
  ghost function Unreached(s: State, id: OpId, status: Status, agent: Agent := TheWorker): Completion
    requires Known(s, id)
  {
    Completion(id, Result(RequestOf(s, id).requestId, status), agent, None, None, s.clock)
  }

  /** What the worker makes of the driver's reply: its own request id, and Timeout past the deadline. */
  ghost function Conclude(request: Request, call: DriverCall, reply: Reply, now: int): Completion {
    match reply
    case Raised => Completion(call.id, Result(request.requestId, Failed), TheWorker, None, None, now)
    case Replied(r) =>
      var status := if request.deadline.Passed(now) then Timeout else r.status;
      Completion(call.id, Result(request.requestId, status), TheWorker, Some(call), Some(r.status), now)
  }

  /** submit() returns `r` without having enqueued anything. */
  ghost predicate Refuse(s: State, t: Tid, id: OpId, r: SubmitResult, s': State)
    requires t < |s.pcs|
  {
    s' == s.(pcs := s.pcs[t := Idle], tally := CountOutcome(s.tally, r),
             subs := Ended(s.subs, id, Returned(r)).(answers := s.subs.answers + [r]))
  }

  ghost predicate SubmitStep(s: State, t: Tid, a: SubmitAction, s': State)
    requires t < |s.pcs|
  {
    var p := s.pcs[t];
    match a
    case Call(request) =>
      && p == Idle
      && var id := |s.subs.requests|;
         s' == s.(pcs := s.pcs[t := Submitting(id)],
                  subs := s.subs.(requests := s.subs.requests + [request], active := s.subs.active[id := t]),
                  tally := s.tally.(submitted := s.tally.submitted + 1))
    case Reject =>
      && p.Submitting? && Known(s, p.id) && !ValidRequest(RequestOf(s, p.id))
      && Refuse(s, t, p.id, InvalidRequest, s')
    case Enter(found) =>
      && p.Submitting? && Known(s, p.id) && ValidRequest(RequestOf(s, p.id)) && s.life.lock == None
      && if !s.life.started || s.life.stopping then Refuse(s, t, p.id, Stopping, s')
         else if !found then Refuse(s, t, p.id, UnknownDevice, s')
         else s' == s.(pcs := s.pcs[t := Pushing(p.id)], life := s.life.(lock := Some(t)))
    case Enqueue =>
      && p.Pushing?
      && var (q, answer) := Push(s.q, p.id);
         s' == s.(pcs := s.pcs[t := Counting(p.id, QueueAnswer(answer))], q := q,
                  subs := s.subs.(outcomes := s.subs.outcomes[p.id := Returned(QueueAnswer(answer))]),
                  flow := s.flow.(accepted := if answer == Pushed then s.flow.accepted + [p.id] else s.flow.accepted))
    case Throw =>
      && p.Pushing? && !s.q.closed && |s.q.items| < s.q.capacity
      && s' == s.(pcs := s.pcs[t := Idle], life := s.life.(lock := None),
                  subs := Ended(s.subs, p.id, Threw).(threw := s.subs.threw + 1))
    case Count =>
      && p.Counting?
      && s' == s.(pcs := s.pcs[t := Idle], life := s.life.(lock := None),
                  subs := s.subs.(active := s.subs.active - {p.id}, answers := s.subs.answers + [p.result]),
                  tally := CountOutcome(s.tally, p.result))
  }

  ghost predicate StopStep(s: State, t: Tid, a: StopAction, s': State)
    requires t < |s.pcs|
  {
    var p := s.pcs[t];
    match a
    case Mark =>
      && p == Idle && s.life.lock == None && !s.life.stopping
      && s' == s.(pcs := s.pcs[t := StopMarked],
                  life := s.life.(lock := Some(t), stopping := true, stopper := Some(t)))
    case CloseQueue =>
      p == StopMarked && s' == s.(pcs := s.pcs[t := StopClosed], q := Close(s.q))
    case Sweep(reserved) =>
      && p == StopClosed
      && s' == s.(pcs := s.pcs[t := Delivering(0)], life := s.life.(lock := None),
                  q := if reserved then Drain(s.q) else s.q,
                  flow := s.flow.(swept := true, callsAtSweep := |s.calls|,
                                  cancelled := if reserved then s.q.items else [],
                                  leftover := if reserved then 0 else |s.q.items|))
    case CancelOne =>
      && p.Delivering? && p.next < |s.flow.cancelled| && Known(s, s.flow.cancelled[p.next])
      && var id := s.flow.cancelled[p.next];
         var silent := !RequestOf(s, id).hasCompletion;
         s' == s.(pcs := s.pcs[t := if silent then Delivering(p.next + 1) else CancelCallback(p.next)],
                  flow := s.flow.(cancelCounted := p.next + 1,
                                  cancelDone := if silent then p.next + 1 else s.flow.cancelDone),
                  done := s.done + [Unreached(s, id, Cancelled, TheStopper)],
                  statuses := CountStatus(s.statuses, Cancelled))
    case CancelReturn =>
      && p.CancelCallback?
      && s' == s.(pcs := s.pcs[t := Delivering(p.next + 1)], flow := s.flow.(cancelDone := p.next + 1))
    case Finish =>
      && p == Delivering(|s.flow.cancelled|) && s.life.lock == None
      && s' == s.(pcs := s.pcs[t := Idle], life := s.life.(stopComplete := true))
  }

  ghost predicate JoinStep(s: State, t: Tid, a: JoinAction, s': State)
    requires t < |s.pcs|
  {
    && s.life.lock == None
    && match a
       case Wait =>
         s.pcs[t] == Idle && s.life.started && s' == s.(pcs := s.pcs[t := JoinWaiting])
       case Claim =>
         && s.pcs[t] == JoinWaiting && s.life.stopComplete && !s.life.joinInProgress && !s.life.joined
         && s' == s.(pcs := s.pcs[t := Joining], life := s.life.(joinInProgress := true, joiner := Some(t)))
       case SeeJoined =>
         && s.pcs[t] == JoinWaiting && s.life.stopComplete && s.life.joined
         && s' == s.(pcs := s.pcs[t := Idle])
       case Join =>
         && s.pcs[t] == Joining && s.worker == Exited
         && s' == s.(pcs := s.pcs[t := Idle],
                     life := s.life.(joinInProgress := false, joined := true, joiner := None,
                                     joins := s.life.joins + 1))
       case Fail =>
         && s.pcs[t] == Joining
         && s' == s.(pcs := s.pcs[t := Idle], life := s.life.(joinInProgress := false, joiner := None))
  }

  /** The worker decides on an operation without touching the gate. */
  ghost predicate Settle(s: State, c: Completion, s': State) {
    s' == s.(worker := Finishing(c))
  }

  ghost predicate WorkerStep(s: State, a: WorkerAction, s': State) {
    match a
    case Take =>
      && s.worker == Waiting && s.q.items != []
      && var id := s.q.items[0];
         s' == s.(q := Pop(s.q), flow := s.flow.(taken := s.flow.taken + [id]), worker := Held(id, s.clock))
    case Exit =>
      && s.worker == Waiting && s.q.items == [] && s.q.closed
      && s' == s.(worker := Exited)
    case Resolve(found) =>
      && s.worker.Held? && Known(s, s.worker.id)
      && var Held(id, takenAt) := s.worker;
         if !found then Settle(s, Unreached(s, id, Failed), s')
         else if RequestOf(s, id).deadline.Reached(s.clock) then Settle(s, Unreached(s, id, Timeout), s')
         else s' == s.(worker := AtGate(id, takenAt))
    case PassGate(answer) =>
      && s.worker.AtGate? && Known(s, s.worker.id)
      && var AtGate(id, takenAt) := s.worker;
         if !s.hasGates then s' == s.(worker := Gated(id, takenAt))
         else if answer == GateMissing then Settle(s, Unreached(s, id, Failed), s')
         else if answer == GateTimedOut then Settle(s, Unreached(s, id, Timeout), s')
         else
           && RequestOf(s, id).deviceId !in s.gates
           && s' == s.(worker := Gated(id, takenAt), gates := s.gates[RequestOf(s, id).deviceId := ByControl])
    case Recheck =>
      && s.worker.Gated? && Known(s, s.worker.id)
      && var Gated(id, takenAt) := s.worker;
         s' == s.(worker := if RequestOf(s, id).deadline.Reached(s.clock) then Releasing(Unreached(s, id, Timeout))
                            else Cleared(id, takenAt, s.clock))
    case Begin =>
      && s.worker.Cleared?
      && var call := DriverCall(s.worker.id, |s.flow.taken| - 1, s.worker.takenAt, s.worker.checkedAt, s.clock);
         s' == s.(worker := Calling(call), calls := s.calls + [call],
                  statuses := s.statuses.(executed := s.statuses.executed + 1))
    case Return(reply) =>
      && s.worker.Calling? && Known(s, s.worker.call.id)
      && s' == s.(worker := Releasing(Conclude(RequestOf(s, s.worker.call.id), s.worker.call, reply, s.clock)))
    case Release =>
      && s.worker.Releasing? && Known(s, s.worker.done.id)
      && s' == s.(worker := Finishing(s.worker.done),
                  gates := if s.hasGates then s.gates - {RequestOf(s, s.worker.done.id).deviceId} else s.gates)
    case Complete =>
      && s.worker.Finishing? && Known(s, s.worker.done.id)
      && var c := s.worker.done;
         var silent := !RequestOf(s, c.id).hasCompletion;
         s' == s.(worker := if silent then Waiting else InCallback(c.id),
                  flow := s.flow.(workerDone := if silent then s.flow.workerDone + [c.id] else s.flow.workerDone),
                  done := s.done + [c], statuses := CountStatus(s.statuses, c.result.status))
    case CallbackReturn =>
      && s.worker.InCallback?
      && s' == s.(worker := Waiting, flow := s.flow.(workerDone := s.flow.workerDone + [s.worker.id]))
  }

  /** The rest: starting, time passing, and polls taking and returning device gates. */
  ghost predicate OtherStep(s: State, a: Action, s': State) {
    match a
    case Start(t) =>
      && t < |s.pcs| && s.pcs[t] == Idle && s.life.lock == None && !s.life.started && !s.life.stopping
      && s' == s.(life := s.life.(started := true), worker := Waiting)
    case Tick(elapsed) => s' == s.(clock := s.clock + elapsed)
    case PollLock(device) => device !in s.gates && s' == s.(gates := s.gates[device := ByPoll])
    case PollUnlock(device) =>
      device in s.gates && s.gates[device] == ByPoll && s' == s.(gates := s.gates - {device})
    case _ => false
  }

  ghost predicate Step(s: State, a: Action, s': State) {
    match a
    case Submit(t, submit) => t < |s.pcs| && SubmitStep(s, t, submit, s')
    case Stop(t, stop) => t < |s.pcs| && StopStep(s, t, stop, s')
    case Join(t, join) => t < |s.pcs| && JoinStep(s, t, join, s')
    case Work(work) => WorkerStep(s, work, s')
    case _ => OtherStep(s, a, s')
  }

  ghost predicate StepAt(states: seq<State>, actions: seq<Action>, i: nat)
    requires i < |actions| && |states| == |actions| + 1
  {
    Step(states[i], actions[i], states[i + 1])
  }

  /** Every run: any finite sequence of steps, by any threads, from the initial state. */
  ghost predicate Run(states: seq<State>, actions: seq<Action>) {
    && |states| == |actions| + 1 && Init(states[0])
    && forall i | 0 <= i < |actions| :: StepAt(states, actions, i)
  }
}
