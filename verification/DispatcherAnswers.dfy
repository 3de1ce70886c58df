/** Why every operation ends with the status it has and every call of submit with the answer it has: each is traced
    to the step of the run that decides it, and what that step decides is final. */
module DispatcherAnswers {
  import opened Options
  import opened ControlTypes
  import opened Dispatcher
  import opened DispatcherInvariant
  import opened DispatcherSteps
  import opened DispatcherTheorems

  // ----- the worker's verdicts -----

  ghost predicate Expired(s: State, id: OpId) {
    id < |s.subs.requests| && s.subs.requests[id].deadline.At? && s.subs.requests[id].deadline.time <= s.clock
  }

  /** The device's driver or its gate was not found, or the driver threw. */
  ghost predicate Breaks(s: State, a: Action, id: OpId) {
    || (a == Work(Resolve(false)) && s.worker.Held? && s.worker.id == id)
    || (a == Work(PassGate(GateMissing)) && s.hasGates && s.worker.AtGate? && s.worker.id == id)
    || (a == Work(Return(Raised)) && s.worker.Calling? && s.worker.call.id == id)
  }

  /** A clock reading found the deadline reached, on a device that was found. */
  ghost predicate Expires(s: State, a: Action, id: OpId) {
    || (a == Work(Resolve(true)) && s.worker.Held? && s.worker.id == id && Expired(s, id))
    || (a == Work(Recheck) && s.worker.Gated? && s.worker.id == id && Expired(s, id))
  }

  ghost predicate GateTimesOut(s: State, a: Action, id: OpId) {
    a == Work(PassGate(GateTimedOut)) && s.hasGates && s.worker.AtGate? && s.worker.id == id
  }

  /** The driver returned that status. */
  ghost predicate Replies(s: State, a: Action, id: OpId, status: Status) {
    && a.Work? && a.work.Return? && a.work.reply.Replied? && a.work.reply.result.status == status
    && s.worker.Calling? && s.worker.call.id == id
  }

  /** What a step of the worker decides about a completion, and when. */
  ghost predicate Decides(s: State, a: Action, c: Completion) {
    && c.endedAt == s.clock
    && match c.answer
       case Some(status) => Replies(s, a, c.id, status)
       case None =>
         || (c.result.status == Failed && Breaks(s, a, c.id))
         || (c.result.status == Timeout && (Expires(s, a, c.id) || GateTimesOut(s, a, c.id)))
  }

  /** The worker has decided on that completion and not delivered it yet. */
  ghost predicate InHand(w: Worker, c: Completion) {
    (w.Releasing? || w.Finishing?) && w.done == c
  }

  lemma {:induction false} WorkDelivers(s: State, a: WorkerAction, s': State, c: Completion)
    requires WorkerStep(s, a, s')
    ensures c in s'.done ==> c in s.done || InHand(s.worker, c)
    ensures InHand(s.worker, c) ==> InHand(s'.worker, c) || c in s'.done
    ensures c in s.done ==> c in s'.done
  {}

  lemma {:induction false} OthersLeaveWorker(s: State, a: Action, s': State)
    requires Step(s, a, s') && !a.Work?
    ensures s'.worker == s.worker || (s'.worker == Waiting && (FlowOk(s) ==> s.worker == NotStarted))
  {}

  lemma {:induction false} OthersCompleteNothing(s: State, a: Action, s': State)
    requires Step(s, a, s') && !a.Work? && !a.Stop?
    ensures s'.done == s.done
  {}

  lemma {:induction false} StopperDelivers(s: State, t: Tid, a: StopAction, s': State, c: Completion)
    requires t < |s.pcs| && StopStep(s, t, a, s')
    ensures c in s.done ==> c in s'.done
    ensures c in s'.done && c.agent == TheWorker ==> c in s.done
  {}

  lemma {:induction false} OthersLeaveVerdicts(s: State, a: Action, s': State, c: Completion)
    requires Step(s, a, s') && !a.Work?
    ensures InHand(s'.worker, c) ==> InHand(s.worker, c)
    ensures InHand(s.worker, c) && FlowOk(s) ==> InHand(s'.worker, c)
    ensures c in s.done ==> c in s'.done
    ensures c in s'.done && c.agent == TheWorker ==> c in s.done
  {
    OthersLeaveWorker(s, a, s');
    if a.Stop? {
      StopperDelivers(s, a.t, a.stop, s', c);
    } else {
      OthersCompleteNothing(s, a, s');
    }
  }

  /** The step that decided on the completion. */
  ghost predicate Decided(states: seq<State>, actions: seq<Action>, i: nat, c: Completion)
    requires |states| == |actions| + 1 && i < |states|
  {
    exists m :: 0 <= m < i && Decides(states[m], actions[m], c)
  }

  lemma {:induction false} EveryVerdict(states: seq<State>, actions: seq<Action>, i: nat, c: Completion)
    requires Run(states, actions) && i < |states|
    requires InHand(states[i].worker, c) || (c in states[i].done && c.agent == TheWorker)
    ensures Decided(states, actions, i, c)
  {
    if i > 0 {
      var s, a, s' := states[i - 1], actions[i - 1], states[i];
      assert StepAt(states, actions, i - 1);
      if a.Work? {
        WorkDelivers(s, a.work, s', c);
      } else {
        OthersLeaveVerdicts(s, a, s', c);
      }
      if !Decides(s, a, c) {
        EveryVerdict(states, actions, i - 1, c);
      }
    }
  }

  /** Every completion the worker delivers without an answer from the driver is traced to its cause: Failed only if
      the driver or the gate of that operation's device was not found or the driver threw, and Timeout only if a
      clock reading in this run found the deadline reached or the wait for the gate timed out. */
  lemma VerdictsHaveCauses(states: seq<State>, actions: seq<Action>, i: nat, c: Completion)
    requires Run(states, actions) && i < |states| && c in states[i].done && c.agent == TheWorker && c.answer == None
    ensures c.result.status == Failed || c.result.status == Timeout
    ensures c.result.status == Failed ==> exists m :: 0 <= m < i && Breaks(states[m], actions[m], c.id)
    ensures c.result.status == Timeout ==>
              exists m :: 0 <= m < i && (Expires(states[m], actions[m], c.id)
                                         || GateTimesOut(states[m], actions[m], c.id))
  {
    EveryVerdict(states, actions, i, c);
  }

  /** A completion with an answer has it from the driver. */
  lemma AnswersAreReplies(states: seq<State>, actions: seq<Action>, i: nat, c: Completion, status: Status)
    requires Run(states, actions) && i < |states| && c in states[i].done && c.agent == TheWorker
    requires c.answer == Some(status)
    ensures exists m :: 0 <= m < i && Replies(states[m], actions[m], c.id, status) && states[m].clock == c.endedAt
  {
    EveryVerdict(states, actions, i, c);
  }

  // ----- a verdict is final -----

  lemma {:induction false} VerdictStays(states: seq<State>, actions: seq<Action>, m: nat, j: nat, c: Completion)
    requires Run(states, actions) && m <= j < |states| && InHand(states[m].worker, c)
    ensures InHand(states[j].worker, c) || c in states[j].done
    decreases j
  {
    if m < j {
      VerdictStays(states, actions, m, j - 1, c);
      var s, a, s' := states[j - 1], actions[j - 1], states[j];
      assert StepAt(states, actions, j - 1);
      if a.Work? {
        WorkDelivers(s, a.work, s', c);
      } else {
        RunInv(states, actions, j - 1);
        OthersLeaveVerdicts(s, a, s', c);
      }
    }
  }

  lemma {:induction false} OccursTwice(ids: seq<OpId>, k: nat, l: nat)
    requires k < l < |ids| && ids[k] == ids[l]
    ensures 2 <= Occurs(ids, ids[k])
  {
    assert ids == ids[..l] + ids[l..] && ids[..l][k] == ids[k] && ids[l..][0] == ids[k];
  }

  /** Two completions of the same operation would be two occurrences of it. */
  lemma {:induction false} TwoOccurrences(done: seq<Completion>, i: nat, j: nat)
    requires i < |done| && j < |done| && done[i].id == done[j].id && Occurs(Ids(done), done[i].id) <= 1
    ensures i == j
  {
    if i < j {
      OccursTwice(Ids(done), i, j);
    } else if j < i {
      OccursTwice(Ids(done), j, i);
    }
  }

  /** An operation in the worker's hand has not completed. */
  lemma {:induction false} NotInBoth(s: State, c: Completion, k: nat)
    requires FlowOk(s) && DoneOk(s) && AcceptOk(s) && InHand(s.worker, c) && k < |s.done|
    ensures c.id != s.done[k].id
  {
    Places(s, c.id);
    DistinctCounts(s.flow.accepted, c.id);
    assert Ids(s.done)[k] == s.done[k].id;
  }

  lemma {:induction false} VerdictIsFinal(states: seq<State>, actions: seq<Action>, m: nat, j: nat, c: Completion,
                                          d: Completion)
    requires Run(states, actions) && m <= j < |states| && InHand(states[m].worker, c)
    requires d in states[j].done && d.id == c.id
    ensures d == c
  {
    VerdictStays(states, actions, m, j, c);
    RunInv(states, actions, j);
    var done := states[j].done;
    var k :| 0 <= k < |done| && done[k] == d;
    if InHand(states[j].worker, c) {
      NotInBoth(states[j], c, k);
    } else {
      var l :| 0 <= l < |done| && done[l] == c;
      OnceInState(states[j], c.id);
      TwoOccurrences(done, k, l);
    }
  }

  /** The driver's answer counts unless the clock, read after it, is strictly past the deadline. */
  ghost predicate InTimeOrTimeout(s: State, c: Completion, status: Status) {
    && c.endedAt == s.clock && c.id < |s.subs.requests|
    && var deadline := s.subs.requests[c.id].deadline;
       c.result.status == if deadline.At? && deadline.time < s.clock then Timeout else status
  }

  /** The completion that a deciding step leaves in the worker's hand. */
  ghost predicate LeavesInHand(s: State, a: Action, s': State, id: OpId) {
    && (s'.worker.Releasing? || s'.worker.Finishing?)
    && var c := s'.worker.done;
       && c.id == id && c.agent == TheWorker && c.endedAt == s.clock
       && (Breaks(s, a, id) ==> c.answer == None && c.result.status == Failed)
       && (Expires(s, a, id) || GateTimesOut(s, a, id) ==> c.answer == None && c.result.status == Timeout)
       && forall status :: Replies(s, a, id, status) ==> c.answer == Some(status) && InTimeOrTimeout(s, c, status)
  }

  ghost predicate Deciding(s: State, a: Action, id: OpId) {
    || Breaks(s, a, id) || Expires(s, a, id) || GateTimesOut(s, a, id)
    || exists status :: Replies(s, a, id, status)
  }

  /** What those steps decide is how the operation ends: Failed without a driver, without a gate or when the driver
      throws; Timeout when a clock reading finds the deadline reached or the gate cannot be had in time; and what the
      driver answered, or Timeout if by then the deadline has passed. */
  lemma VerdictsStand(states: seq<State>, actions: seq<Action>, m: nat, j: nat)
    requires Run(states, actions) && m < j < |states|
    ensures forall d | d in states[j].done :: Stands(states[m], actions[m], d)
  {
    forall d | d in states[j].done
      ensures Stands(states[m], actions[m], d)
    {
      if Deciding(states[m], actions[m], d.id) {
        assert StepAt(states, actions, m);
        VerdictIsFinal(states, actions, m + 1, j, states[m + 1].worker.done, d);
      }
    }
  }

  ghost predicate Stands(s: State, a: Action, d: Completion) {
    && (Breaks(s, a, d.id) ==> d.answer == None && d.result.status == Failed)
    && (Expires(s, a, d.id) || GateTimesOut(s, a, d.id) ==> d.answer == None && d.result.status == Timeout)
    && forall status :: Replies(s, a, d.id, status) ==> d.answer == Some(status) && InTimeOrTimeout(s, d, status)
  }

  // ----- callbacks -----

  /** The thread that completes the operation is now in its callback. */
  ghost predicate CallsBack(a: Action, s': State, c: Completion) {
    match c.agent
    case TheWorker => s'.worker == InCallback(c.id)
    case TheStopper =>
      && a.Stop? && a.t < |s'.pcs| && s'.pcs[a.t].CancelCallback?
      && s'.pcs[a.t].next < |s'.flow.cancelled| && s'.flow.cancelled[s'.pcs[a.t].next] == c.id
  }

  lemma {:induction false} CallsBackIffSupplied(s: State, a: Action, s': State)
    requires WorkerOk(s) && Step(s, a, s') && |s.done| < |s'.done|
    ensures var c := s'.done[|s.done|];
            && s'.done == s.done + [c] && c.id < |s.subs.requests|
            && (CallsBack(a, s', c) <==> s.subs.requests[c.id].hasCompletion)
  {
    if !a.Work? && !a.Stop? {
      OthersCompleteNothing(s, a, s');
    }
  }

  /** Whenever an operation completes, its callback is invoked, at once and by the completing thread, if and only if
      the submitter supplied one. */
  lemma CallbackIffSupplied(states: seq<State>, actions: seq<Action>, i: nat)
    requires Run(states, actions) && i < |actions| && |states[i].done| < |states[i + 1].done|
    ensures var c := states[i + 1].done[|states[i].done|];
            && states[i + 1].done == states[i].done + [c] && c.id < |states[i].subs.requests|
            && (CallsBack(actions[i], states[i + 1], c) <==> states[i].subs.requests[c.id].hasCompletion)
  {
    RunInv(states, actions, i);
    assert StepAt(states, actions, i);
    CallsBackIffSupplied(states[i], actions[i], states[i + 1]);
  }

  // ----- the answers of submit -----

  ghost predicate Inside(s: State, a: Action, id: OpId) {
    && a.Submit? && a.t < |s.pcs|
    && ((s.pcs[a.t].Submitting? && s.pcs[a.t].id == id) || (s.pcs[a.t].Pushing? && s.pcs[a.t].id == id))
  }

  ghost predicate Accepting(s: State) {
    s.life.started && !s.life.stopping
  }

  ghost predicate Nameless(s: State, id: OpId) {
    id < |s.subs.requests| && (s.subs.requests[id].deviceId == "" || s.subs.requests[id].command == "")
  }

  /** The step at which submit answers, and what it must have found. */
  ghost predicate AnswersWith(s: State, a: Action, id: OpId, r: SubmitResult) {
    && Inside(s, a, id)
    && match r
       case InvalidRequest => a.submit == Reject && Nameless(s, id)
       case Stopping => a.submit.Enter? && !Nameless(s, id) && !Accepting(s)
       case UnknownDevice => a.submit == Enter(false) && !Nameless(s, id) && Accepting(s)
       case QueueFull =>
         a.submit == Enqueue && !Nameless(s, id) && Accepting(s) && !s.q.closed && |s.q.items| == s.q.capacity
       case Accepted =>
         a.submit == Enqueue && !Nameless(s, id) && Accepting(s) && !s.q.closed && |s.q.items| < s.q.capacity
  }

  /** An operation that is being pushed has passed the first checks. */
  ghost predicate PushesValid(s: State) {
    forall t | 0 <= t < |s.pcs| && s.pcs[t].Pushing? :: s.pcs[t].id < |s.subs.requests| && !Nameless(s, s.pcs[t].id)
  }

  lemma {:induction false} OnlySubmitRecords(s: State, a: Action, s': State)
    requires Step(s, a, s') && !a.Submit?
    ensures s'.subs == s.subs
  {}

  lemma {:induction false} OthersPushNothing(s: State, a: Action, s': State, t: Tid)
    requires Step(s, a, s') && !a.Submit? && t < |s'.pcs| && s'.pcs[t].Pushing?
    ensures t < |s.pcs| && s.pcs[t] == s'.pcs[t]
  {}

  lemma {:induction false} StepPushesValid(s: State, a: Action, s': State)
    requires PushesValid(s) && Step(s, a, s')
    ensures PushesValid(s')
  {
    if a.Submit? {
    } else {
      OnlySubmitRecords(s, a, s');
      forall t | 0 <= t < |s'.pcs| && s'.pcs[t].Pushing?
        ensures s'.pcs[t].id < |s'.subs.requests| && !Nameless(s', s'.pcs[t].id)
      {
        OthersPushNothing(s, a, s', t);
      }
    }
  }

  lemma {:induction false} RunPushesValid(states: seq<State>, actions: seq<Action>, i: nat)
    requires Run(states, actions) && i < |states|
    ensures forall k | 0 <= k <= i :: PushesValid(states[k])
  {
    if i > 0 {
      RunPushesValid(states, actions, i - 1);
      assert StepAt(states, actions, i - 1);
      StepPushesValid(states[i - 1], actions[i - 1], states[i]);
    }
  }

  /** An outcome is recorded in the step in which the queue or submit itself answers. */
  lemma {:induction false} OutcomeRecorded(s: State, t: Tid, a: SubmitAction, s': State, id: OpId, r: SubmitResult)
    requires PushesValid(s) && LockOk(s) && StopOk(s) && FlowOk(s) && t < |s.pcs| && SubmitStep(s, t, a, s')
    requires id in s'.subs.outcomes && s'.subs.outcomes[id] == Returned(r)
    ensures (id in s.subs.outcomes && s.subs.outcomes[id] == Returned(r)) || AnswersWith(s, Submit(t, a), id, r)
  {}

  /** The record of a submission only grows. */
  lemma {:induction false} RecordStays(s: State, a: Action, s': State, id: OpId)
    requires ThreadsOk(s) && Step(s, a, s') && id < |s.subs.requests|
    ensures id in s.subs.outcomes ==> id in s'.subs.outcomes && s'.subs.outcomes[id] == s.subs.outcomes[id]
    ensures id in s'.subs.active ==> id in s.subs.active
    ensures id < |s'.subs.requests| && s'.subs.requests[id] == s.subs.requests[id]
  {
    if !a.Submit? {
      OnlySubmitRecords(s, a, s');
    }
  }

  /** What the answer of one step rests on. */
  ghost predicate Ready(s: State) {
    PushesValid(s) && LockOk(s) && StopOk(s) && FlowOk(s) && ThreadsOk(s)
  }

  lemma {:induction false} RunReady(states: seq<State>, actions: seq<Action>, i: nat)
    requires Run(states, actions) && i < |states|
    ensures Ready(states[i])
  {
    RunInv(states, actions, i);
    RunPushesValid(states, actions, i);
  }

  lemma {:induction false} StepRecords(s: State, a: Action, s': State, id: OpId, r: SubmitResult)
    requires Ready(s) && Step(s, a, s') && id in s'.subs.outcomes && s'.subs.outcomes[id] == Returned(r)
    ensures (id in s.subs.outcomes && s.subs.outcomes[id] == Returned(r)) || AnswersWith(s, a, id, r)
  {
    if a.Submit? {
      OutcomeRecorded(s, a.t, a.submit, s', id, r);
    } else {
      OnlySubmitRecords(s, a, s');
    }
  }

  /** Every answer of submit is given at a step that found its cause: InvalidRequest for an empty device id or command;
      Stopping only when the dispatcher was not started or was stopping; UnknownDevice only when it was started, not
      stopping, and no driver was found; QueueFull only at capacity; Accepted only below it. */
  lemma {:induction false} EveryAnswer(states: seq<State>, actions: seq<Action>, i: nat, id: OpId, r: SubmitResult)
    requires Run(states, actions) && i < |states|
    requires id in states[i].subs.outcomes && states[i].subs.outcomes[id] == Returned(r)
    ensures exists m :: 0 <= m < i && AnswersWith(states[m], actions[m], id, r)
  {
    if i > 0 {
      assert StepAt(states, actions, i - 1);
      RunReady(states, actions, i - 1);
      StepRecords(states[i - 1], actions[i - 1], states[i], id, r);
      if !AnswersWith(states[i - 1], actions[i - 1], id, r) {
        EveryAnswer(states, actions, i - 1, id, r);
      }
    }
  }

  lemma {:induction false} OutcomeStays(states: seq<State>, actions: seq<Action>, m: nat, j: nat, id: OpId, o: Outcome)
    requires Run(states, actions) && m <= j < |states| && id < |states[m].subs.requests|
    requires id in states[m].subs.outcomes && states[m].subs.outcomes[id] == o
    ensures id < |states[j].subs.requests| && id in states[j].subs.outcomes && states[j].subs.outcomes[id] == o
    decreases j
  {
    if m < j {
      OutcomeStays(states, actions, m, j - 1, id, o);
      assert StepAt(states, actions, j - 1);
      RunReady(states, actions, j - 1);
      RecordStays(states[j - 1], actions[j - 1], states[j], id);
    }
  }

  /** And every step that finds such a cause gives that answer, for good. */
  lemma AnswersStand(states: seq<State>, actions: seq<Action>, m: nat, j: nat, id: OpId, r: SubmitResult)
    requires Run(states, actions) && m < j < |states| && AnswersWith(states[m], actions[m], id, r)
    ensures id in states[j].subs.outcomes && states[j].subs.outcomes[id] == Returned(r)
  {
    assert StepAt(states, actions, m);
    RunPushesValid(states, actions, m);
    OutcomeStays(states, actions, m + 1, j, id, Returned(r));
  }

  // ----- invalid requests -----

  ghost predicate InvalidExactly(s: State) {
    forall id | id in s.subs.outcomes ::
      id < |s.subs.requests| && (s.subs.outcomes[id] == Returned(InvalidRequest) <==> Nameless(s, id))
  }

  lemma {:induction false} SubmitInvalidExactly(s: State, t: Tid, a: SubmitAction, s': State, id: OpId)
    requires PushesValid(s) && FlowOk(s) && t < |s.pcs| && SubmitStep(s, t, a, s') && id in s'.subs.outcomes
    requires id in s.subs.outcomes ==>
               id < |s.subs.requests| && (s.subs.outcomes[id] == Returned(InvalidRequest) <==> Nameless(s, id))
    ensures id < |s'.subs.requests| && (s'.subs.outcomes[id] == Returned(InvalidRequest) <==> Nameless(s', id))
  {}

  lemma {:induction false} StepInvalidExactly(s: State, a: Action, s': State)
    requires InvalidExactly(s) && PushesValid(s) && FlowOk(s) && Step(s, a, s')
    ensures InvalidExactly(s')
  {
    if a.Submit? {
      forall id | id in s'.subs.outcomes
        ensures id < |s'.subs.requests| && (s'.subs.outcomes[id] == Returned(InvalidRequest) <==> Nameless(s', id))
      {
        SubmitInvalidExactly(s, a.t, a.submit, s', id);
      }
    } else {
      OnlySubmitRecords(s, a, s');
    }
  }

  /** A call of submit that has ended was answered InvalidRequest if and only if its device id or its command is
      empty. */
  lemma {:induction false} InvalidIffNameless(states: seq<State>, actions: seq<Action>, i: nat)
    requires Run(states, actions) && i < |states|
    ensures InvalidExactly(states[i])
  {
    if i > 0 {
      InvalidIffNameless(states, actions, i - 1);
      assert StepAt(states, actions, i - 1);
      RunReady(states, actions, i - 1);
      StepInvalidExactly(states[i - 1], actions[i - 1], states[i]);
    }
  }
}
