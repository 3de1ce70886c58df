/** What every step of the dispatcher keeps. Each invariant speaks only of the components it depends on. */
module DispatcherInvariant {
  import opened Options
  import opened ControlTypes
  import opened Fifo
  import opened Dispatcher

  // ----- the lifecycle lock -----

  ghost predicate HoldsLock(p: Pc) {
    p.Pushing? || p.Counting? || p.StopMarked? || p.StopClosed?
  }

  ghost predicate LockInv(pcs: seq<Pc>, l: Life) {
    && (l.lock.Some? ==> l.lock.value < |pcs|)
    && (forall t | 0 <= t < |pcs| :: HoldsLock(pcs[t]) <==> l.lock == Some(t))
    && (forall t | 0 <= t < |pcs| :: pcs[t].Pushing? || pcs[t].Counting? ==> l.started && !l.stopping)
  }

  // ----- the one thread that runs the stop critical section -----

  ghost predicate IsStopping(p: Pc) {
    p.StopMarked? || p.StopClosed? || p.Delivering? || p.CancelCallback?
  }

  ghost predicate StopInv(pcs: seq<Pc>, l: Life, closed: bool, swept: bool) {
    && (l.stopping <==> l.stopper.Some?)
    && (forall t | 0 <= t < |pcs| :: IsStopping(pcs[t]) ==> l.stopper == Some(t))
    && (l.stopper == None ==> !closed && !l.stopComplete && !swept)
    && (l.stopper.Some? ==>
          var t := l.stopper.value;
          && t < |pcs|
          && (IsStopping(pcs[t]) <==> !l.stopComplete)
          && (closed <==> pcs[t] != StopMarked)
          && (swept <==> pcs[t] != StopMarked && pcs[t] != StopClosed))
  }

  ghost predicate SweepInv(pcs: seq<Pc>, l: Life, f: Flow, items: seq<OpId>) {
    && f.cancelDone <= f.cancelCounted <= |f.cancelled|
    && (!f.swept ==> f.cancelled == [])
    && (f.cancelled != [] ==> items == [] && f.leftover == 0)
    && (f.swept ==> |items| <= f.leftover)
    && (l.stopComplete ==> f.cancelDone == |f.cancelled|)
    && (l.stopper.Some? && l.stopper.value < |pcs| ==>
          var p := pcs[l.stopper.value];
          && (p.Delivering? ==> f.cancelDone == f.cancelCounted == p.next)
          && (p.CancelCallback? ==> f.cancelDone == p.next && f.cancelCounted == p.next + 1))
  }

  // ----- where accepted operations are -----

  ghost function Hand(w: Worker): seq<OpId> {
    match w
    case Held(id, _) => [id]
    case AtGate(id, _) => [id]
    case Gated(id, _) => [id]
    case Cleared(id, _, _) => [id]
    case Calling(call) => [call.id]
    case Releasing(c) => [c.id]
    case Finishing(c) => [c.id]
    case InCallback(id) => [id]
    case _ => []
  }

  ghost predicate FlowInv(q: Queue<OpId>, f: Flow, w: Worker, started: bool) {
    && Bounded(q) && q.accepted == |f.accepted|
    && f.accepted == f.taken + f.cancelled + q.items
    && f.taken == f.workerDone + Hand(w)
    && (started <==> w != NotStarted) && (!started ==> f.accepted == [])
    && (w == Exited ==> q.closed && q.items == [])
  }

  // ----- identities -----

  ghost predicate IsSubmitting(p: Pc) {
    p.Submitting? || p.Pushing? || p.Counting?
  }

  /** Every thread inside submit is on record, with an outcome exactly once the queue has answered. */
  ghost predicate ThreadInv(pcs: seq<Pc>, subs: Subs) {
    forall t | 0 <= t < |pcs| && IsSubmitting(pcs[t]) ::
      && pcs[t].id in subs.active && subs.active[pcs[t].id] == t
      && (pcs[t].Counting? <==> pcs[t].id in subs.outcomes)
      && (pcs[t].Counting? ==> subs.outcomes[pcs[t].id] == Returned(pcs[t].result))
  }

  /** Every call of submit is still active or has an outcome. */
  ghost predicate ActiveInv(pcs: seq<Pc>, subs: Subs) {
    && (forall id | id in subs.active ::
          && id < |subs.requests| && subs.active[id] < |pcs|
          && IsSubmitting(pcs[subs.active[id]]) && pcs[subs.active[id]].id == id)
    && (forall id | id in subs.outcomes :: id < |subs.requests|)
    && (forall id | 0 <= id < |subs.requests| :: id in subs.active || id in subs.outcomes)
  }

  ghost predicate Distinct(ids: seq<OpId>) {
    forall i, j | 0 <= i < j < |ids| :: ids[i] != ids[j]
  }

  ghost predicate AcceptInv(accepted: seq<OpId>, outcomes: map<OpId, Outcome>) {
    && Distinct(accepted)
    && (forall id | id in accepted :: id in outcomes && outcomes[id] == Returned(Accepted))
    && (forall id | id in outcomes && outcomes[id] == Returned(Accepted) :: id in accepted)
  }

  /** Inside submit the queue never answers Stopping. */
  ghost predicate AnswerInv(pcs: seq<Pc>) {
    forall t | 0 <= t < |pcs| && pcs[t].Counting? :: pcs[t].result == Accepted || pcs[t].result == QueueFull
  }

  // ----- completions -----

  ghost function Ids(done: seq<Completion>): seq<OpId> {
    seq(|done|, i requires 0 <= i < |done| => done[i].id)
  }

  /** Every completion counted so far is one the worker or the stopper has finished with,
      or the one whose callback it is running. */
  ghost predicate DoneInv(done: seq<Completion>, workerDone: seq<OpId>, cancelled: seq<OpId>, counted: nat, w: Worker) {
    && counted <= |cancelled|
    && forall id :: Occurs(Ids(done), id)
        == Occurs(workerDone, id) + Occurs(cancelled[..counted], id) + Occurs(InCall(w), id)
  }

  ghost function Occurs(ids: seq<OpId>, id: OpId): nat {
    multiset(ids)[id]
  }

  ghost function InCall(w: Worker): seq<OpId> {
    if w.InCallback? then [w.id] else []
  }

  // ----- counters -----

  ghost function Answers(log: seq<SubmitResult>, r: SubmitResult): nat {
    if log == [] then 0 else Answers(log[..|log| - 1], r) + if log[|log| - 1] == r then 1 else 0
  }

  /** Each submission counter is the number of calls that returned that result. */
  ghost predicate AnswerCounts(c: Tally, log: seq<SubmitResult>) {
    && c.accepted == Answers(log, Accepted) && c.queueFull == Answers(log, QueueFull)
    && c.unknownDevice == Answers(log, UnknownDevice) && c.invalidRequests == Answers(log, InvalidRequest)
    && c.stopping == Answers(log, Stopping)
  }

  ghost predicate CountInv(c: Tally, subs: Subs) {
    c.submitted == |subs.requests| == Answered(c) + subs.threw + |subs.active|
  }

  /** The thread that holds the lock has been told Accepted by the queue and has not counted it yet. */
  ghost predicate Uncounted(pcs: seq<Pc>, lock: Option<Tid>) {
    lock.Some? && lock.value < |pcs| && pcs[lock.value].Counting? && pcs[lock.value].result == Accepted
  }

  ghost predicate LagInv(c: Tally, accepted: seq<OpId>, pcs: seq<Pc>, lock: Option<Tid>) {
    |accepted| == c.accepted + if Uncounted(pcs, lock) then 1 else 0
  }

  ghost function WithStatus(done: seq<Completion>, r: Status): nat {
    if done == [] then 0 else WithStatus(done[..|done| - 1], r) + if done[|done| - 1].result.status == r then 1 else 0
  }

  /** Each execution counter is the number of completions with that status. */
  ghost predicate StatusInv(c: Statuses, done: seq<Completion>) {
    && Completed(c) == |done|
    && c.succeeded == WithStatus(done, Succeeded) && c.unsupported == WithStatus(done, Unsupported)
    && c.invalidArgument == WithStatus(done, InvalidArgument) && c.timeouts == WithStatus(done, Timeout)
    && c.cancelled == WithStatus(done, Cancelled) && c.failed == WithStatus(done, Failed)
  }

  ghost predicate ExecutedInv(c: Statuses, w: Worker) {
    var pending := w.Calling? || ((w.Releasing? || w.Finishing?) && w.done.call.Some?);
    c.succeeded + c.unsupported + c.invalidArgument + (if pending then 1 else 0) <= c.executed
  }

  // ----- join -----

  ghost predicate JoinInv(pcs: seq<Pc>, l: Life, exited: bool) {
    && (l.joinInProgress <==> l.joiner.Some?)
    && (forall t | 0 <= t < |pcs| :: pcs[t] == Joining <==> l.joiner == Some(t))
    && (forall t | 0 <= t < |pcs| && (pcs[t] == Joining || pcs[t] == JoinWaiting) :: l.started)
    && (l.joiner.Some? ==> l.stopComplete && !l.joined && l.joiner.value < |pcs|)
    && (l.joined ==> exited && l.stopComplete)
    && l.joins == if l.joined then 1 else 0
  }

  // ----- driver calls, gates and deadlines -----

  ghost predicate Ordered(requests: seq<Request>, call: DriverCall) {
    && call.id < |requests|
    && call.takenAt <= call.checkedAt <= call.beganAt
    && !requests[call.id].deadline.Reached(call.checkedAt)
  }

  ghost predicate Sound(requests: seq<Request>, c: Completion) {
    && c.id < |requests|
    && c.result.requestId == requests[c.id].requestId
    && (c.call.Some? <==> c.answer.Some?)
    && (c.call.Some? ==>
          && c.call.value.id == c.id && Ordered(requests, c.call.value) && c.call.value.beganAt <= c.endedAt
          && c.result.status == if requests[c.id].deadline.Passed(c.endedAt) then Timeout else c.answer.value)
    && (c.call.None? && c.agent == TheWorker ==> c.result.status in {Timeout, Failed})
    && (c.agent == TheStopper ==> c.call.None? && c.result.status == Cancelled)
  }

  ghost predicate WorkerInv(w: Worker, clock: int, requests: seq<Request>) {
    && (Hand(w) != [] ==> Hand(w)[0] < |requests|)
    && (match w
        case Held(_, takenAt) => takenAt <= clock
        case AtGate(_, takenAt) => takenAt <= clock
        case Gated(_, takenAt) => takenAt <= clock
        case Cleared(id, takenAt, checkedAt) =>
          checkedAt <= clock && Ordered(requests, DriverCall(id, 0, takenAt, checkedAt, clock))
        case Calling(call) => call.beganAt <= clock && Ordered(requests, call)
        case Releasing(c) => Sound(requests, c) && c.agent == TheWorker
        case Finishing(c) => Sound(requests, c) && c.agent == TheWorker
        case _ => true)
  }

  ghost predicate LogInv(done: seq<Completion>, calls: seq<DriverCall>, requests: seq<Request>) {
    && (forall i | 0 <= i < |done| :: Sound(requests, done[i]))
    && (forall i | 0 <= i < |calls| :: Ordered(requests, calls[i]))
  }

  ghost predicate HoldsGate(w: Worker) {
    w.Gated? || w.Cleared? || w.Calling? || w.Releasing?
  }

  /** The worker owns exactly the gate of the device it is working on, and only around the driver call. */
  ghost predicate GateInv(hasGates: bool, w: Worker, gates: map<string, Holder>, requests: seq<Request>) {
    if hasGates && HoldsGate(w) && Hand(w)[0] < |requests| then
      forall x :: (x in gates && gates[x] == ByControl) <==> x == requests[Hand(w)[0]].deviceId
    else
      forall x | x in gates :: gates[x] == ByPoll
  }

  // ----- driver calls against the order of taking -----

  /** The worker holds an operation for which the driver may still be called. */
  ghost predicate MayCall(w: Worker) {
    w.Held? || w.AtGate? || w.Gated? || w.Cleared?
  }

  /** The operations the driver was called for are a subsequence of those taken. */
  ghost predicate OrderInv(calls: seq<DriverCall>, taken: seq<OpId>, finished: nat, w: Worker) {
    && (forall i | 0 <= i < |calls| ::
          && 0 <= calls[i].position < |taken| && taken[calls[i].position] == calls[i].id
          && (MayCall(w) ==> calls[i].position < finished))
    && (forall i, j | 0 <= i < j < |calls| :: calls[i].position < calls[j].position)
  }

  ghost predicate BudgetInv(calls: nat, f: Flow, w: Worker, items: nat) {
    f.swept ==> calls + items + (if MayCall(w) then 1 else 0) <= f.callsAtSweep + 1 + f.leftover
  }

  // ----- all of it -----

  ghost predicate LockOk(s: State) { LockInv(s.pcs, s.life) }
  ghost predicate StopOk(s: State) { StopInv(s.pcs, s.life, s.q.closed, s.flow.swept) }
  ghost predicate SweepOk(s: State) { SweepInv(s.pcs, s.life, s.flow, s.q.items) }
  ghost predicate JoinOk(s: State) { JoinInv(s.pcs, s.life, s.worker == Exited) }
  ghost predicate ThreadsOk(s: State) { ThreadInv(s.pcs, s.subs) }
  ghost predicate ActiveOk(s: State) { ActiveInv(s.pcs, s.subs) }
  ghost predicate AnswersOk(s: State) { AnswerInv(s.pcs) }
  ghost predicate LagOk(s: State) { LagInv(s.tally, s.flow.accepted, s.pcs, s.life.lock) }
  ghost predicate AcceptOk(s: State) { AcceptInv(s.flow.accepted, s.subs.outcomes) }
  ghost predicate CountOk(s: State) { CountInv(s.tally, s.subs) }
  ghost predicate ResultsOk(s: State) { AnswerCounts(s.tally, s.subs.answers) }
  ghost predicate FlowOk(s: State) { FlowInv(s.q, s.flow, s.worker, s.life.started) }
  ghost predicate DoneOk(s: State) {
    DoneInv(s.done, s.flow.workerDone, s.flow.cancelled, s.flow.cancelCounted, s.worker)
  }
  ghost predicate StatusOk(s: State) { StatusInv(s.statuses, s.done) }
  ghost predicate ExecutedOk(s: State) { ExecutedInv(s.statuses, s.worker) && s.statuses.executed == |s.calls| }
  ghost predicate WorkerOk(s: State) { WorkerInv(s.worker, s.clock, s.subs.requests) }
  ghost predicate LogOk(s: State) { LogInv(s.done, s.calls, s.subs.requests) }
  ghost predicate GatesOk(s: State) { GateInv(s.hasGates, s.worker, s.gates, s.subs.requests) }
  ghost predicate OrderOk(s: State) { OrderInv(s.calls, s.flow.taken, |s.flow.workerDone|, s.worker) }
  ghost predicate BudgetOk(s: State) { BudgetInv(|s.calls|, s.flow, s.worker, |s.q.items|) }

  ghost predicate CallerInv(s: State) {
    LockOk(s) && StopOk(s) && SweepOk(s) && JoinOk(s) && ThreadsOk(s) && ActiveOk(s) && AnswersOk(s) && LagOk(s)
  }

  ghost predicate HistoryInv(s: State) {
    AcceptOk(s) && CountOk(s) && ResultsOk(s) && FlowOk(s) && DoneOk(s) && StatusOk(s)
  }

  ghost predicate WorkInv(s: State) {
    ExecutedOk(s) && WorkerOk(s) && LogOk(s) && GatesOk(s) && OrderOk(s) && BudgetOk(s)
  }

  lemma {:induction false} InitCaller(s: State)
    requires Init(s)
    ensures CallerInv(s)
  {}

  lemma {:induction false} InitDone(workerDone: seq<OpId>, cancelled: seq<OpId>, w: Worker)
    requires workerDone == cancelled == [] && w == NotStarted
    ensures DoneInv([], workerDone, cancelled, 0, w)
  {}

  lemma {:induction false} InitHistory(s: State)
    requires Init(s)
    ensures HistoryInv(s)
  {
    InitDone(s.flow.workerDone, s.flow.cancelled, s.worker);
  }

  lemma {:induction false} InitWork(s: State)
    requires Init(s)
    ensures WorkInv(s)
  {}
}
