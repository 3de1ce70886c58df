/** What the invariant says about whole runs of the dispatcher. */
module DispatcherTheorems {
  import opened Options
  import opened ControlTypes
  import opened Fifo
  import opened Dispatcher
  import opened DispatcherInvariant
  import opened DispatcherSteps

  // ----- every accepted operation completes exactly once -----

  ghost function Completions(s: State, id: OpId): nat {
    Occurs(Ids(s.done), id)
  }

  ghost predicate SubmitReturned(s: State, id: OpId, r: Outcome) {
    id in s.subs.outcomes && s.subs.outcomes[id] == r && id !in s.subs.active
  }

  lemma {:induction false} DistinctCounts(ids: seq<OpId>, x: OpId)
    requires Distinct(ids)
    ensures Occurs(ids, x) == if x in ids then 1 else 0
  {
    if ids != [] {
      var last := |ids| - 1;
      assert ids == ids[..last] + [ids[last]];
      DistinctCounts(ids[..last], x);
    }
  }

  /** Everything accepted is completed, in the worker's hand, in the rest of the cancel batch or queued. */
  lemma {:induction false} Places(s: State, id: OpId)
    requires FlowOk(s) && DoneOk(s)
    ensures Occurs(s.flow.accepted, id) ==
            Occurs(Ids(s.done), id) + Occurs(if s.worker.InCallback? then [] else Hand(s.worker), id)
            + Occurs(s.flow.cancelled[s.flow.cancelCounted..], id) + Occurs(s.q.items, id)
  {
    PlacesOf(s.q.items, s.flow, s.worker, Ids(s.done), id);
  }

  lemma {:induction false} PlacesOf(items: seq<OpId>, f: Flow, w: Worker, done: seq<OpId>, id: OpId)
    requires f.accepted == f.taken + f.cancelled + items && f.taken == f.workerDone + Hand(w)
    requires f.cancelCounted <= |f.cancelled|
    requires Occurs(done, id)
        == Occurs(f.workerDone, id) + Occurs(f.cancelled[..f.cancelCounted], id) + Occurs(InCall(w), id)
    ensures Occurs(f.accepted, id) ==
            Occurs(done, id) + Occurs(if w.InCallback? then [] else Hand(w), id)
            + Occurs(f.cancelled[f.cancelCounted..], id) + Occurs(items, id)
  {
    var counted, rest := f.cancelled[..f.cancelCounted], f.cancelled[f.cancelCounted..];
    assert f.accepted == f.workerDone + Hand(w) + (counted + rest) + items;
    assert w.InCallback? ==> Hand(w) == InCall(w);
  }

  lemma {:induction false} OnceInState(s: State, id: OpId)
    requires FlowOk(s) && DoneOk(s) && SweepOk(s) && AcceptOk(s)
    ensures Completions(s, id) <= 1
    ensures Completions(s, id) == 1 ==> id in s.subs.outcomes && s.subs.outcomes[id] == Returned(Accepted)
    ensures s.worker == Exited && s.life.stopComplete ==> Completions(s, id) == if id in s.flow.accepted then 1 else 0
  {
    Places(s, id);
    DistinctCounts(s.flow.accepted, id);
    if s.worker == Exited && s.life.stopComplete {
      assert s.flow.cancelled[s.flow.cancelCounted..] == [];
    }
  }

  /** In every state of every run an operation has completed at most once; only an operation the queue
      accepted can have completed; a refused submission never does; and once join has returned, every
      accepted operation has completed exactly once. */
  lemma ExactlyOnce(states: seq<State>, actions: seq<Action>, i: nat, id: OpId)
    requires Run(states, actions) && i < |states|
    ensures Completions(states[i], id) <= 1
    ensures SubmitReturned(states[i], id, Returned(Accepted)) && states[i].life.joined
        ==> Completions(states[i], id) == 1
    ensures forall r :: SubmitReturned(states[i], id, r) && r != Returned(Accepted) ==> Completions(states[i], id) == 0
  {
    RunInv(states, actions, i);
    OnceInState(states[i], id);
  }

  // ----- the stop barrier -----

  ghost predicate CallbackRunning(s: State) {
    s.worker.InCallback? || exists t | 0 <= t < |s.pcs| :: s.pcs[t].CancelCallback?
  }

  /** Nothing is left to do: the worker is gone, the queue is empty for good, and the callback of
      every accepted operation has returned. */
  ghost predicate Quiet(s: State) {
    && s.worker == Exited && s.q.closed && s.q.items == [] && !CallbackRunning(s)
    && s.flow.accepted == s.flow.workerDone + s.flow.cancelled && s.flow.cancelDone == |s.flow.cancelled|
    && |s.done| == |s.flow.accepted| && forall id :: Completions(s, id) == if id in s.flow.accepted then 1 else 0
  }

  /** Two sequences with the same occurrences have the same length. */
  lemma {:induction false} SameLength(a: seq<OpId>, b: seq<OpId>)
    requires forall id :: Occurs(a, id) == Occurs(b, id)
    ensures |a| == |b|
  {
    forall id
      ensures multiset(a)[id] == multiset(b)[id]
    {
      assert Occurs(a, id) == Occurs(b, id);
    }
    assert multiset(a) == multiset(b);
  }

  lemma {:induction false} JoinedIsQuiet(s: State)
    requires FlowOk(s) && DoneOk(s) && SweepOk(s) && AcceptOk(s) && JoinOk(s) && StopOk(s) && s.life.joined
    ensures Quiet(s) && s.life.joins == 1
  {
    forall id
      ensures Completions(s, id) == Occurs(s.flow.accepted, id) == if id in s.flow.accepted then 1 else 0
    {
      OnceInState(s, id);
      DistinctCounts(s.flow.accepted, id);
    }
    SameLength(Ids(s.done), s.flow.accepted);
    assert s.flow.workerDone + [] == s.flow.workerDone;
  }

  ghost predicate JoinReturns(a: Action) {
    a.Join? && (a.join == JoinAction.Join || a.join == SeeJoined)
  }

  lemma {:induction false} JoinedForGood(states: seq<State>, actions: seq<Action>, i: nat, j: nat)
    requires Run(states, actions) && i <= j < |states| && states[i].life.joined
    ensures states[j].life.joined
    decreases j
  {
    if i < j {
      JoinedForGood(states, actions, i, j - 1);
      assert StepAt(states, actions, j - 1);
    }
  }

  /** Whenever join returns normally, for any number of concurrent stop and join callers, the dispatcher
      is quiet, it stays quiet for the rest of the run, and exactly one thread performed the join. */
  lemma StopBarrier(states: seq<State>, actions: seq<Action>, i: nat)
    requires Run(states, actions) && i < |actions| && JoinReturns(actions[i])
    ensures forall j | i < j < |states| :: Quiet(states[j]) && states[j].life.joins == 1
  {
    assert StepAt(states, actions, i);
    forall j | i < j < |states|
      ensures Quiet(states[j]) && states[j].life.joins == 1
    {
      JoinedForGood(states, actions, i + 1, j);
      RunInv(states, actions, j);
      JoinedIsQuiet(states[j]);
    }
  }

  /** At no time are two threads inside worker_.join(). */
  lemma OneJoiner(states: seq<State>, actions: seq<Action>, i: nat, t: Tid, u: Tid)
    requires Run(states, actions) && i < |states| && t < |states[i].pcs| && u < |states[i].pcs|
    requires states[i].pcs[t] == states[i].pcs[u] == Joining
    ensures t == u && states[i].life.joinInProgress
  {
    RunInv(states, actions, i);
    assert states[i].life.joiner == Some(t) && states[i].life.joiner == Some(u);
  }

  // ----- first in, first out, split between worker and stopper -----

  ghost predicate Split(f: Flow) {
    && f.taken <= f.accepted
    && (f.swept && f.leftover == 0 ==> f.cancelled == f.accepted[|f.taken|..])
  }

  lemma {:induction false} SplitInState(s: State)
    requires FlowOk(s) && SweepOk(s)
    ensures Split(s.flow)
  {
    var f := s.flow;
    assert f.accepted == f.taken + (f.cancelled + s.q.items);
    assert f.cancelled + [] == f.cancelled;
  }

  /** What the worker has taken is a prefix of what was accepted. Once cancel_pending has run and left
      nothing behind, the cancelled operations are exactly the rest. */
  lemma FifoSplit(states: seq<State>, actions: seq<Action>, i: nat)
    requires Run(states, actions) && i < |states|
    ensures Split(states[i].flow)
  {
    RunInv(states, actions, i);
    SplitInState(states[i]);
  }

  ghost predicate CallsInOrder(s: State) {
    && (forall k | 0 <= k < |s.calls| ::
          0 <= s.calls[k].position < |s.flow.taken| && s.flow.taken[s.calls[k].position] == s.calls[k].id)
    && (forall k, l | 0 <= k < l < |s.calls| :: s.calls[k].position < s.calls[l].position)
    && (s.flow.swept ==> |s.calls| <= s.flow.callsAtSweep + 1 + s.flow.leftover)
  }

  /** The driver is called for operations in the order they were taken, each at most once, and after the
      stop critical section for at most one more than the operations a failed cancel_pending left behind. */
  lemma DriverCalls(states: seq<State>, actions: seq<Action>, i: nat)
    requires Run(states, actions) && i < |states|
    ensures CallsInOrder(states[i])
  {
    RunInv(states, actions, i);
  }

  // ----- counters -----

  ghost predicate Conserved(s: State) {
    && s.q.accepted == |s.flow.taken| + |s.flow.cancelled| + |s.q.items|
    && s.tally.accepted <= s.q.accepted <= s.tally.accepted + 1
    && s.tally.submitted == Answered(s.tally) + s.subs.threw + |s.subs.active|
    && AnswerCounts(s.tally, s.subs.answers) && StatusInv(s.statuses, s.done)
    && s.statuses.executed == |s.calls|
    && s.statuses.succeeded + s.statuses.unsupported + s.statuses.invalidArgument <= s.statuses.executed
    && (s.q.closed ==> s.life.stopping)
    && ((forall t | 0 <= t < |s.pcs| :: s.pcs[t] != StopMarked) ==> (s.q.closed <==> s.life.stopping))
    && (forall t | 0 <= t < |s.pcs| && s.pcs[t].Counting? :: s.pcs[t].result != Stopping)
    && (s.life.joined ==> Completed(s.statuses) == |s.flow.accepted| == s.tally.accepted)
  }

  /** The queue's counters account for every operation and the dispatcher's own count of accepted lags it by
      at most one; every submit in progress or ended is counted once, under the result it returned; every
      completion is counted once, under its status, and every driver call once as executed; and outside the stop
      critical section the queue is closed exactly when stopping_ is set, so try_push inside submit never answers
      Stopping. After join the six status counters sum to accepted. */
  lemma Conservation(states: seq<State>, actions: seq<Action>)
    requires Run(states, actions)
    ensures forall i | 0 <= i < |states| :: Conserved(states[i])
  {
    forall i | 0 <= i < |states|
      ensures Conserved(states[i])
    {
      RunInv(states, actions, i);
      ConservedInState(states[i]);
    }
  }

  lemma {:induction false} ConservedInState(s: State)
    requires CallerInv(s) && HistoryInv(s) && ExecutedOk(s)
    ensures Conserved(s)
  {
    if s.life.joined {
      JoinedIsQuiet(s);
    }
  }

  // ----- deadlines -----

  /** What a completion promises: its own request id; when cancelled, never a driver call; without an answer from
      the driver, Timeout or Failed; with one, that answer unless the deadline has passed; and when Succeeded,
      a call after a clock check strictly before the deadline, ended by a later check no later than it. */
  ghost predicate Honest(c: Completion, r: Request) {
    && c.result.requestId == r.requestId
    && (c.agent == TheStopper ==> c.call.None? && c.result.status == Cancelled)
    && (c.agent == TheWorker && c.call.None? ==> c.result.status in {Timeout, Failed})
    && (c.call.Some? ==> c.answer.Some?
                         && c.result.status == if r.deadline.Passed(c.endedAt) then Timeout else c.answer.value)
    && (c.result.status == Succeeded ==>
          && c.call.Some? && c.call.value.id == c.id
          && !r.deadline.Reached(c.call.value.checkedAt)
          && c.call.value.checkedAt <= c.call.value.beganAt <= c.endedAt
          && !r.deadline.Passed(c.endedAt))
  }

  /** Every completion of every run is honest, and an operation already expired when taken never reaches
      the driver. */
  lemma DeadlineSoundness(states: seq<State>, actions: seq<Action>)
    requires Run(states, actions)
    ensures forall i | 0 <= i < |states| :: AllHonest(states[i])
  {
    forall i | 0 <= i < |states|
      ensures AllHonest(states[i])
    {
      RunInv(states, actions, i);
      forall k: nat
        ensures HonestAt(states[i], k)
      {
        LoggedInState(states[i], k);
      }
    }
  }

  /** The k-th completion and the k-th driver call of a state. */
  ghost predicate HonestAt(s: State, k: nat) {
    && (k < |s.done| ==> s.done[k].id < |s.subs.requests| && Honest(s.done[k], s.subs.requests[s.done[k].id]))
    && (k < |s.calls| ==> s.calls[k].id < |s.subs.requests|
                          && !s.subs.requests[s.calls[k].id].deadline.Reached(s.calls[k].takenAt))
  }

  ghost predicate AllHonest(s: State) {
    forall k: nat :: HonestAt(s, k)
  }

  lemma {:induction false} LoggedInState(s: State, k: nat)
    requires LogOk(s)
    ensures k < |s.done| ==> s.done[k].id < |s.subs.requests| && Honest(s.done[k], s.subs.requests[s.done[k].id])
    ensures k < |s.calls| ==> Ordered(s.subs.requests, s.calls[k])
  {}

  // ----- device gates and lock discipline -----

  /** While the driver executes a control the worker owns that device's gate, so no poll does. */
  ghost predicate OwnsGate(s: State) {
    && s.worker.Calling? && s.worker.call.id < |s.subs.requests|
    && var d := s.subs.requests[s.worker.call.id].deviceId;
       d in s.gates && s.gates[d] == ByControl
  }

  ghost predicate NoGateOwned(s: State) {
    forall d | d in s.gates :: s.gates[d] == ByPoll
  }

  ghost predicate Disciplined(s: State) {
    && (s.hasGates && s.worker.Calling? ==> OwnsGate(s))
    && (s.worker.Finishing? || s.worker.InCallback? || s.worker == Waiting || s.worker == Exited ==> NoGateOwned(s))
    && (forall t | 0 <= t < |s.pcs| && s.pcs[t].CancelCallback? :: s.life.lock != Some(t))
  }

  lemma {:induction false} DisciplineInState(s: State)
    requires LockOk(s) && GatesOk(s) && WorkerOk(s)
    ensures Disciplined(s)
  {}

  /** The worker owns a gate only around the driver call and never when it completes an operation, and no
      callback runs on a thread that holds the lifecycle lock: a callback may call submit again. */
  lemma LockDiscipline(states: seq<State>, actions: seq<Action>)
    requires Run(states, actions)
    ensures forall i | 0 <= i < |states| :: Disciplined(states[i])
  {
    forall i | 0 <= i < |states|
      ensures Disciplined(states[i])
    {
      RunInv(states, actions, i);
      DisciplineInState(states[i]);
    }
  }

  /** A step of the thread that holds the lock, which ends its call or carries it on. */
  ghost predicate HolderStep(s: State, a: Action) {
    && ((a.Submit? && (a.submit == Enqueue || a.submit == Count))
        || (a.Stop? && (a.stop == CloseQueue || a.stop.Sweep?)))
    && s.life.lock == Some(a.t)
  }

  /** The holder of the lifecycle lock is never blocked: it can always take its next step. */
  lemma LockHolderCanStep(states: seq<State>, actions: seq<Action>, i: nat)
    requires Run(states, actions) && i < |states| && states[i].life.lock.Some?
    ensures exists a, s' :: Step(states[i], a, s') && HolderStep(states[i], a)
  {
    RunInv(states, actions, i);
    HolderMoves(states[i]);
  }

  lemma {:induction false} HolderMoves(s: State)
    requires LockOk(s) && s.life.lock.Some?
    ensures exists a, s' :: Step(s, a, s') && HolderStep(s, a)
  {
    var t := s.life.lock.value;
    var p := s.pcs[t];
    assert HoldsLock(p);
    match p
    case Pushing(id) =>
      var (q, answer) := Push(s.q, id);
      var s' := s.(pcs := s.pcs[t := Counting(id, QueueAnswer(answer))], q := q,
                   subs := s.subs.(outcomes := s.subs.outcomes[id := Returned(QueueAnswer(answer))]),
                   flow := s.flow.(accepted := if answer == Pushed then s.flow.accepted + [id] else s.flow.accepted));
      assert Step(s, Submit(t, Enqueue), s');
    case Counting(id, r) =>
      var s' := s.(pcs := s.pcs[t := Idle], life := s.life.(lock := None),
                   subs := s.subs.(active := s.subs.active - {id}, answers := s.subs.answers + [r]),
                   tally := CountOutcome(s.tally, r));
      assert Step(s, Submit(t, Count), s');
    case StopMarked =>
      assert Step(s, Stop(t, CloseQueue), s.(pcs := s.pcs[t := StopClosed], q := Close(s.q)));
    case StopClosed =>
      var s' := s.(pcs := s.pcs[t := Delivering(0)], life := s.life.(lock := None),
                   flow := s.flow.(swept := true, callsAtSweep := |s.calls|, cancelled := [], leftover := |s.q.items|));
      assert Step(s, Stop(t, Sweep(false)), s');
  }

  // ----- shutdown ends -----

  ghost function WorkerSteps(w: Worker): nat {
    match w
    case NotStarted => 0
    case Exited => 0
    case Waiting => 1
    case InCallback(_) => 2
    case Finishing(_) => 3
    case Releasing(_) => 4
    case Calling(_) => 5
    case Cleared(_, _, _) => 6
    case Gated(_, _) => 7
    case AtGate(_, _) => 8
    case Held(_, _) => 9
  }

  /** How many more steps the worker and the stopper can take once the queue has been swept. */
  ghost function Remaining(s: State): int {
    9 * |s.q.items| + WorkerSteps(s.worker)
    + if s.life.stopComplete then 0 else 1 + 2 * |s.flow.cancelled| - s.flow.cancelDone - s.flow.cancelCounted
  }

  /** The worker goes on without the gate it waits for. */
  ghost predicate GivesUp(a: WorkerAction) {
    a == PassGate(GateTimedOut) || a == PassGate(GateMissing)
  }

  ghost predicate IsShutdownStep(a: Action) {
    a.Work? || a.Stop?
  }

  lemma {:induction false} WorkFalls(s: State, a: WorkerAction, s': State)
    requires FlowOk(s) && WorkerStep(s, a, s')
    ensures 9 * |s'.q.items| + WorkerSteps(s'.worker) < 9 * |s.q.items| + WorkerSteps(s.worker)
    ensures s'.life == s.life && s'.flow == s.flow.(taken := s'.flow.taken, workerDone := s'.flow.workerDone)
  {}

  lemma {:induction false} StopFalls(s: State, t: Tid, a: StopAction, s': State)
    requires StopOk(s) && SweepOk(s) && s.flow.swept && t < |s.pcs| && StopStep(s, t, a, s')
    ensures s'.q == s.q && s'.worker == s.worker && s'.flow.swept && Remaining(s') < Remaining(s)
  {}

  lemma {:induction false} SubmitFalls(s: State, t: Tid, a: SubmitAction, s': State)
    requires LockOk(s) && StopOk(s) && s.flow.swept && t < |s.pcs| && SubmitStep(s, t, a, s')
    ensures s'.q == s.q && s'.worker == s.worker && s'.flow == s.flow && s'.life.stopComplete == s.life.stopComplete
  {}

  lemma {:induction false} RemainingFalls(s: State, a: Action, s': State)
    requires CallerInv(s) && FlowOk(s) && s.flow.swept && Step(s, a, s')
    ensures s'.flow.swept
    ensures Remaining(s') <= Remaining(s) - if IsShutdownStep(a) then 1 else 0
  {
    match a
    case Submit(t, submit) => SubmitFalls(s, t, submit, s');
    case Stop(t, stop) => StopFalls(s, t, stop, s');
    case Work(work) => WorkFalls(s, work, s');
    case _ =>
  }

  /** Shutdown is over: the cancel batch is delivered and the worker, if there ever was one, has exited. */
  ghost predicate ShutdownOver(s: State) {
    s.life.stopComplete && (s.worker == Exited || !s.life.started)
  }

  lemma {:induction false} RemainingEnds(s: State)
    requires SweepOk(s) && FlowOk(s) && s.flow.swept
    ensures 0 <= Remaining(s)
    ensures Remaining(s) == 0 <==> ShutdownOver(s)
  {}

  /** The number of such steps among actions[i..j]. */
  ghost function ShutdownSteps(actions: seq<Action>, i: nat, j: nat): nat
    requires i <= j <= |actions|
    decreases j
  {
    if i == j then 0
    else ShutdownSteps(actions, i, j - 1) + if IsShutdownStep(actions[j - 1]) then 1 else 0
  }

  lemma {:induction false} RunFalls(states: seq<State>, actions: seq<Action>, i: nat)
    requires Run(states, actions) && i < |actions| && states[i].flow.swept
    ensures states[i + 1].flow.swept
    ensures Remaining(states[i + 1]) <= Remaining(states[i]) - if IsShutdownStep(actions[i]) then 1 else 0
  {
    RunInv(states, actions, i);
    assert StepAt(states, actions, i);
    RemainingFalls(states[i], actions[i], states[i + 1]);
  }

  /** After the stop critical section, whatever the submitters, joiners, polls and clock do in between, the
      worker and the stopper take at most Remaining steps before shutdown is over. */
  lemma {:induction false} ShutdownEnds(states: seq<State>, actions: seq<Action>, i: nat, j: nat)
    requires Run(states, actions) && i <= j < |states| && states[i].flow.swept
    ensures states[j].flow.swept
    ensures 0 <= Remaining(states[j]) <= Remaining(states[i]) - ShutdownSteps(actions, i, j)
    ensures Remaining(states[j]) == 0 <==> ShutdownOver(states[j])
    decreases j
  {
    if i < j {
      ShutdownEnds(states, actions, i, j - 1);
      RunFalls(states, actions, j - 1);
    }
    RunInv(states, actions, j);
    RemainingEnds(states[j]);
  }

  /** Until then one of them can move, unless the worker waits for a gate that a poll holds: shutdown
      is never stuck on the dispatcher's own locks. */
  lemma {:induction false} ShutdownMoves(states: seq<State>, actions: seq<Action>, i: nat)
    requires Run(states, actions) && i < |states|
    requires states[i].flow.swept && !ShutdownOver(states[i]) && states[i].life.lock == None
    ensures var s := states[i];
            || (exists a, s' :: Step(s, a, s') && IsShutdownStep(a) && !(a.Work? && GivesUp(a.work)))
            || (s.worker.AtGate? && s.worker.id < |s.subs.requests| && s.subs.requests[s.worker.id].deviceId in s.gates
                && s.gates[s.subs.requests[s.worker.id].deviceId] == ByPoll)
  {
    RunInv(states, actions, i);
    var s := states[i];
    if !s.life.stopComplete {
      StopperMoves(s);
    } else {
      assert FlowOk(s);
      var a, s' := WorkerMoves(s);
      assert WorkerStep(s, a, s') ==> Step(s, Work(a), s');
    }
  }

  lemma {:induction false} StopperMoves(s: State)
    requires StopOk(s) && SweepOk(s) && FlowOk(s) && AcceptOk(s) && ActiveOk(s)
    requires s.flow.swept && !s.life.stopComplete && s.life.lock == None
    ensures exists a, s' :: Step(s, a, s') && a.Stop? && s.life.stopper == Some(a.t)
  {
    var t := s.life.stopper.value;
    var p := s.pcs[t];
    if p.CancelCallback? {
      assert Step(s, Stop(t, CancelReturn),
                  s.(pcs := s.pcs[t := Delivering(p.next + 1)], flow := s.flow.(cancelDone := p.next + 1)));
    } else if p.next == |s.flow.cancelled| {
      assert Step(s, Stop(t, Finish), s.(pcs := s.pcs[t := Idle], life := s.life.(stopComplete := true)));
    } else {
      var id := s.flow.cancelled[p.next];
      assert id in s.flow.accepted;
      var silent := !RequestOf(s, id).hasCompletion;
      var s' := s.(pcs := s.pcs[t := if silent then Delivering(p.next + 1) else CancelCallback(p.next)],
                   flow := s.flow.(cancelCounted := p.next + 1,
                                   cancelDone := if silent then p.next + 1 else s.flow.cancelDone),
                   done := s.done + [Unreached(s, id, Cancelled, TheStopper)],
                   statuses := CountStatus(s.statuses, Cancelled));
      assert Step(s, Stop(t, CancelOne), s');
    }
  }

  /** The worker's next step in each of its states, taking the driver and the callback to return. */
  lemma {:induction false} WorkerMoves(s: State) returns (a: WorkerAction, s': State)
    requires WorkerOk(s) && GatesOk(s) && s.worker != NotStarted && s.worker != Exited
    requires s.worker == Waiting ==> s.q.closed || s.q.items != []
    ensures (WorkerStep(s, a, s') && !GivesUp(a))
            || (s.worker.AtGate? && s.worker.id < |s.subs.requests| && s.subs.requests[s.worker.id].deviceId in s.gates
                && s.gates[s.subs.requests[s.worker.id].deviceId] == ByPoll)
  {
    var w := s.worker;
    match w
    case Held(id, _) =>
      a, s' := Resolve(false), s.(worker := Finishing(Unreached(s, id, Failed)));
    case AtGate(id, takenAt) =>
      a, s' := PassGate(GateLocked), s.(worker := Gated(id, takenAt));
      if s.hasGates {
        s' := s'.(gates := s.gates[RequestOf(s, id).deviceId := ByControl]);
      }
    case Gated(id, takenAt) =>
      a, s' := Recheck, s.(worker := Cleared(id, takenAt, s.clock));
      if RequestOf(s, id).deadline.Reached(s.clock) {
        s' := s.(worker := Releasing(Unreached(s, id, Timeout)));
      }
    case Cleared(id, takenAt, checkedAt) =>
      var call := DriverCall(id, |s.flow.taken| - 1, takenAt, checkedAt, s.clock);
      a, s' := Begin, s.(worker := Calling(call), calls := s.calls + [call],
                         statuses := s.statuses.(executed := s.statuses.executed + 1));
    case Calling(call) =>
      a, s' := Return(Raised), s.(worker := Releasing(Conclude(RequestOf(s, call.id), call, Raised, s.clock)));
    case Releasing(c) =>
      a, s' := Release, s.(worker := Finishing(c),
                           gates := if s.hasGates then s.gates - {RequestOf(s, c.id).deviceId} else s.gates);
    case Finishing(c) =>
      var silent := !RequestOf(s, c.id).hasCompletion;
      a, s' := Complete, s.(worker := if silent then Waiting else InCallback(c.id),
                            flow := s.flow.(workerDone := if silent then s.flow.workerDone + [c.id] else
                                                          s.flow.workerDone),
                            done := s.done + [c], statuses := CountStatus(s.statuses, c.result.status));
    case InCallback(id) =>
      a, s' := CallbackReturn, s.(worker := Waiting, flow := s.flow.(workerDone := s.flow.workerDone + [id]));
    case Waiting =>
      if s.q.items == [] {
        a, s' := Exit, s.(worker := Exited);
      } else {
        var id := s.q.items[0];
        a, s' := Take, s.(q := Pop(s.q), flow := s.flow.(taken := s.flow.taken + [id]), worker := Held(id, s.clock));
      }
  }
}
