/** Two promises the dispatcher does not keep in general, each with the exact condition under which it does. */
module DispatcherLimits {
  import opened Options
  import opened ControlTypes
  import opened Fifo
  import opened Dispatcher
  import opened DispatcherInvariant
  import opened DispatcherSteps
  import opened DispatcherTheorems

  // ----- pieces of runs -----

  /** The worker takes the first operation, passes the gate and finds the deadline still ahead. */
  ghost function AfterTaking(s: State, r: Request): State
    requires s.q.items != []
  {
    s.(q := Pop(s.q), flow := s.flow.(taken := s.flow.taken + [s.q.items[0]]),
       worker := Cleared(s.q.items[0], s.clock, s.clock),
       gates := if s.hasGates then s.gates[r.deviceId := ByControl] else s.gates)
  }

  lemma {:induction false} Takes(s0: State, s: State, r: Request)
    requires Reaches(s0, s) && s.worker == Waiting && s.q.items != [] && Known(s, s.q.items[0])
    requires RequestOf(s, s.q.items[0]) == r && !r.deadline.Reached(s.clock) && r.deviceId !in s.gates
    ensures Reaches(s0, AfterTaking(s, r))
  {
    var id := s.q.items[0];
    var s1 := s.(q := Pop(s.q), flow := s.flow.(taken := s.flow.taken + [id]), worker := Held(id, s.clock));
    StepReaches(s0, s, Work(Take), s1);
    var s2 := s1.(worker := AtGate(id, s.clock));
    StepReaches(s0, s1, Work(Resolve(true)), s2);
    var gates := if s.hasGates then s.gates[r.deviceId := ByControl] else s.gates;
    var s3 := s2.(worker := Gated(id, s.clock), gates := gates);
    StepReaches(s0, s2, Work(PassGate(GateLocked)), s3);
    StepReaches(s0, s3, Work(Recheck), AfterTaking(s, r));
  }

  /** The driver call after `elapsed` and its result, when the driver succeeds at once. */
  ghost function CallAfter(s: State, elapsed: nat): DriverCall
    requires s.worker.Cleared?
  {
    DriverCall(s.worker.id, |s.flow.taken| - 1, s.worker.takenAt, s.worker.checkedAt, s.clock + elapsed)
  }

  ghost function AnswerAfter(s: State, r: Request, elapsed: nat): Completion
    requires s.worker.Cleared?
  {
    Conclude(r, CallAfter(s, elapsed), Replied(Result("", Succeeded)), s.clock + elapsed)
  }

  /** Time passes, the driver is called and succeeds, and the operation is completed. */
  ghost function AfterCalling(s: State, r: Request, elapsed: nat): State
    requires s.worker.Cleared?
  {
    var c := AnswerAfter(s, r, elapsed);
    s.(clock := s.clock + elapsed, calls := s.calls + [CallAfter(s, elapsed)], done := s.done + [c],
       gates := if s.hasGates then s.gates - {r.deviceId} else s.gates,
       worker := if r.hasCompletion then InCallback(c.id) else Waiting,
       flow := s.flow.(workerDone := if r.hasCompletion then s.flow.workerDone else s.flow.workerDone + [c.id]),
       statuses := CountStatus(s.statuses.(executed := s.statuses.executed + 1), c.result.status))
  }

  lemma {:induction false} Calls(s0: State, s: State, r: Request, elapsed: nat)
    requires Reaches(s0, s) && s.worker.Cleared? && Known(s, s.worker.id) && RequestOf(s, s.worker.id) == r
    ensures Reaches(s0, AfterCalling(s, r, elapsed))
  {
    var call, c := CallAfter(s, elapsed), AnswerAfter(s, r, elapsed);
    var s1 := s.(clock := s.clock + elapsed);
    StepReaches(s0, s, Tick(elapsed), s1);
    var s2 := s1.(worker := Calling(call), calls := s1.calls + [call],
                  statuses := s1.statuses.(executed := s1.statuses.executed + 1));
    StepReaches(s0, s1, Work(Begin), s2);
    var s3 := s2.(worker := Releasing(c));
    StepReaches(s0, s2, Work(Return(Replied(Result("", Succeeded)))), s3);
    var s4 := s3.(worker := Finishing(c), gates := if s.hasGates then s.gates - {r.deviceId} else s.gates);
    StepReaches(s0, s3, Work(Release), s4);
    StepReaches(s0, s4, Work(Complete), AfterCalling(s, r, elapsed));
  }

  /** Caller 0 is idle and may submit. */
  ghost predicate Open(s: State) {
    s.pcs != [] && s.pcs[0] == Idle && s.life.started && !s.life.stopping && s.life.lock == None && !s.q.closed
  }

  ghost function AfterSubmitting(s: State, r: Request): State
    requires s.pcs != []
  {
    var id := |s.subs.requests|;
    s.(pcs := s.pcs[0 := Idle], q := s.q.(items := s.q.items + [id], accepted := s.q.accepted + 1),
       subs := Subs(s.subs.requests + [r], s.subs.active[id := 0] - {id}, s.subs.outcomes[id := Returned(Accepted)],
                    s.subs.answers + [Accepted], s.subs.threw),
       flow := s.flow.(accepted := s.flow.accepted + [id]),
       tally := CountOutcome(s.tally.(submitted := s.tally.submitted + 1), Accepted))
  }

  lemma {:induction false} Submits(s0: State, s: State, r: Request)
    requires Reaches(s0, s) && Open(s) && ValidRequest(r) && |s.q.items| < s.q.capacity
    ensures Reaches(s0, AfterSubmitting(s, r))
  {
    var id := |s.subs.requests|;
    var s1 := s.(pcs := s.pcs[0 := Submitting(id)], tally := s.tally.(submitted := s.tally.submitted + 1),
                 subs := s.subs.(requests := s.subs.requests + [r], active := s.subs.active[id := 0]));
    StepReaches(s0, s, Submit(0, Call(r)), s1);
    var s2 := s1.(pcs := s1.pcs[0 := Pushing(id)], life := s1.life.(lock := Some(0)));
    StepReaches(s0, s1, Submit(0, Enter(true)), s2);
    var s3 := s2.(pcs := s2.pcs[0 := Counting(id, Accepted)], q := Push(s2.q, id).0,
                  subs := s2.subs.(outcomes := s2.subs.outcomes[id := Returned(Accepted)]),
                  flow := s2.flow.(accepted := s2.flow.accepted + [id]));
    StepReaches(s0, s2, Submit(0, Enqueue), s3);
    assert AfterSubmitting(s, r).pcs == s3.pcs[0 := Idle];
    StepReaches(s0, s3, Submit(0, Count), AfterSubmitting(s, r));
  }

  ghost function AfterStarting(s: State): State {
    s.(life := s.life.(started := true), worker := Waiting)
  }

  lemma {:induction false} Starts(s: State)
    requires Init(s) && s.pcs != []
    ensures Reaches(s, AfterStarting(s)) && Open(AfterStarting(s))
  {
    InitReaches(s);
    StepReaches(s, s, Start(0), AfterStarting(s));
  }

  // ----- a call that begins before the deadline -----

  /** The request was answered Succeeded by a call that did not begin before its deadline. */
  ghost predicate LateSuccess(s: State, r: Request, k: nat) {
    && k < |s.done| && s.done[k].id < |s.subs.requests| && s.subs.requests[s.done[k].id] == r
    && s.done[k].result.status == Succeeded && s.done[k].call.Some?
    && r.deadline.Reached(s.done[k].call.value.beganAt)
  }

  ghost predicate CanSucceedLate(s: State, r: Request) {
    exists s', k :: Reaches(s, s') && LateSuccess(s', r, k)
  }

  /** Submit, let the worker check the clock, wait until the deadline, call. */
  lemma {:induction false} LateRun(s: State, r: Request)
    requires Init(s) && s.pcs != [] && ValidRequest(r) && r.deadline.At? && s.clock < r.deadline.time
    ensures CanSucceedLate(s, r)
  {
    var s1 := AfterStarting(s);
    Starts(s);
    var s2 := AfterSubmitting(s1, r);
    Submits(s, s1, r);
    var s3 := AfterTaking(s2, r);
    Takes(s, s2, r);
    var elapsed := r.deadline.time - s.clock;
    var s4 := AfterCalling(s3, r, elapsed);
    Calls(s, s3, r, elapsed);
    assert LateSuccess(s4, r, 0);
  }

  ghost predicate WorkerSince(start: int, w: Worker) {
    match w
    case Held(_, takenAt) => start <= takenAt
    case AtGate(_, takenAt) => start <= takenAt
    case Gated(_, takenAt) => start <= takenAt
    case Cleared(_, _, checkedAt) => start <= checkedAt
    case Calling(call) => start <= call.checkedAt
    case Releasing(c) => CheckedSince(start, c)
    case Finishing(c) => CheckedSince(start, c)
    case _ => true
  }

  ghost predicate CheckedSince(start: int, c: Completion) {
    c.call.Some? ==> start <= c.call.value.checkedAt
  }

  /** No clock reading is older than the beginning of the run. */
  ghost predicate Since(start: int, s: State) {
    && start <= s.clock && WorkerSince(start, s.worker)
    && forall k | 0 <= k < |s.done| :: CheckedSince(start, s.done[k])
  }

  lemma {:induction false} WorkKeepsSince(start: int, s: State, a: WorkerAction, s': State)
    requires Since(start, s) && WorkerStep(s, a, s')
    ensures Since(start, s')
  {}

  lemma {:induction false} StepKeepsSince(start: int, s: State, a: Action, s': State)
    requires Since(start, s) && Step(s, a, s')
    ensures Since(start, s')
  {
    if a.Work? {
      WorkKeepsSince(start, s, a.work, s');
    }
  }

  lemma {:induction false} RunSince(states: seq<State>, actions: seq<Action>, i: nat)
    requires Run(states, actions) && i < |states|
    ensures forall k | 0 <= k <= i :: Since(states[0].clock, states[k])
  {
    if i > 0 {
      RunSince(states, actions, i - 1);
      assert StepAt(states, actions, i - 1);
      StepKeepsSince(states[0].clock, states[i - 1], actions[i - 1], states[i]);
    }
  }

  lemma {:induction false} LateNeedsTime(s: State, s': State, r: Request, k: nat)
    requires Reaches(s, s') && LateSuccess(s', r, k)
    ensures r.deadline.At? && s.clock < r.deadline.time
  {
    var states, actions :| LeadsTo(states, actions, s') && states[0] == s;
    RunSince(states, actions, |actions|);
    RunInv(states, actions, |actions|);
    LoggedInState(s', k);
    assert CheckedSince(s.clock, s'.done[k]);
  }

  /** From any initial state with a caller, with or without gates, a valid request can be answered Succeeded by a
      call that did not begin before its deadline if and only if it has a deadline that has not passed yet. */
  lemma {:induction false} LateSuccessIff(s: State, r: Request)
    requires Init(s) && s.pcs != [] && ValidRequest(r)
    ensures CanSucceedLate(s, r) <==> r.deadline.At? && s.clock < r.deadline.time
  {
    if r.deadline.At? && s.clock < r.deadline.time {
      LateRun(s, r);
    }
    if CanSucceedLate(s, r) {
      var s', k :| Reaches(s, s') && LateSuccess(s', r, k);
      LateNeedsTime(s, s', r, k);
    }
  }

  // ----- driver calls after the stop critical section -----

  /** Every request is r, and every queued operation is on record. */
  ghost predicate Uniform(s: State, r: Request) {
    && (forall id: nat | id < |s.subs.requests| :: s.subs.requests[id] == r)
    && (forall id | id in s.q.items :: id < |s.subs.requests|)
  }

  /** The worker is about to call the driver, and n operations are queued behind that one. */
  ghost predicate Loaded(s: State, r: Request, n: nat) {
    && Open(s) && s.worker.Cleared? && Known(s, s.worker.id) && Uniform(s, r)
    && |s.q.items| == n && s.calls == [] && (s.hasGates || r.deviceId !in s.gates)
  }

  ghost predicate CanLoad(s: State, r: Request, n: nat) {
    exists s' :: Reaches(s, s') && Loaded(s', r, n) && s'.q.capacity == s.q.capacity
  }

  lemma {:induction false} LoadFirst(s: State, r: Request)
    requires Init(s) && s.pcs != [] && ValidRequest(r) && r.deadline == Never
    ensures CanLoad(s, r, 0)
  {
    var s1 := AfterStarting(s);
    Starts(s);
    var s2 := AfterSubmitting(s1, r);
    Submits(s, s1, r);
    Takes(s, s2, r);
    assert Loaded(AfterTaking(s2, r), r, 0);
  }

  lemma {:induction false} LoadMore(s0: State, s: State, r: Request, n: nat)
    requires Reaches(s0, s) && Loaded(s, r, n) && ValidRequest(r) && n < s.q.capacity
    ensures Reaches(s0, AfterSubmitting(s, r)) && Loaded(AfterSubmitting(s, r), r, n + 1)
  {
    Submits(s0, s, r);
  }

  lemma {:induction false} Load(s: State, r: Request, n: nat)
    requires Init(s) && s.pcs != [] && ValidRequest(r) && r.deadline == Never && n <= s.q.capacity
    ensures CanLoad(s, r, n)
  {
    if n == 0 {
      LoadFirst(s, r);
    } else {
      Load(s, r, n - 1);
      var s1 :| Reaches(s, s1) && Loaded(s1, r, n - 1) && s1.q.capacity == s.q.capacity;
      LoadMore(s, s1, r, n - 1);
    }
  }

  /** request_stop when cancel_pending cannot allocate. */
  ghost function AfterFailing(s: State): State
    requires s.pcs != []
  {
    s.(pcs := s.pcs[0 := Delivering(0)], life := s.life.(stopping := true, stopper := Some(0)), q := Close(s.q),
       flow := s.flow.(swept := true, callsAtSweep := |s.calls|, cancelled := [], leftover := |s.q.items|))
  }

  lemma {:induction false} Fails(s0: State, s: State)
    requires Reaches(s0, s) && Open(s)
    ensures Reaches(s0, AfterFailing(s))
  {
    var s1 := s.(pcs := s.pcs[0 := StopMarked], life := s.life.(lock := Some(0), stopping := true, stopper := Some(0)));
    StepReaches(s0, s, Stop(0, Mark), s1);
    var s2 := s1.(pcs := s1.pcs[0 := StopClosed], q := Close(s1.q));
    StepReaches(s0, s1, Stop(0, CloseQueue), s2);
    assert AfterFailing(s).pcs == s2.pcs[0 := Delivering(0)];
    StepReaches(s0, s2, Stop(0, Sweep(false)), AfterFailing(s));
  }

  /** The sweep failed with n operations queued, m of which are left. */
  ghost predicate Draining(s: State, r: Request, n: nat, m: nat) {
    && s.worker == Waiting && Uniform(s, r) && |s.q.items| == m && r.deviceId !in s.gates
    && s.flow.swept && s.flow.leftover == n && |s.calls| + m == s.flow.callsAtSweep + n + 1
  }

  lemma {:induction false} CallOne(s0: State, s: State, r: Request)
    requires Reaches(s0, s) && s.worker.Cleared? && Known(s, s.worker.id) && Uniform(s, r) && !r.hasCompletion
    requires s.hasGates || r.deviceId !in s.gates
    ensures var s' := AfterCalling(s, r, 0);
            && Reaches(s0, s') && s'.worker == Waiting && Uniform(s', r) && r.deviceId !in s'.gates
            && s'.q == s.q && |s'.calls| == |s.calls| + 1
            && s'.flow == s.flow.(workerDone := s'.flow.workerDone)
  {
    Calls(s0, s, r, 0);
  }

  ghost predicate CanDrain(s0: State, r: Request, n: nat) {
    exists s' :: Reaches(s0, s') && Draining(s', r, n, 0)
  }

  lemma {:induction false} DrainAll(s0: State, s: State, r: Request, n: nat, m: nat)
    requires Reaches(s0, s) && Draining(s, r, n, m) && r.deadline == Never && !r.hasCompletion
    ensures CanDrain(s0, r, n)
    decreases m
  {
    if m > 0 {
      assert s.q.items[0] in s.q.items;
      Takes(s0, s, r);
      var s1 := AfterTaking(s, r);
      assert forall id | id in s1.q.items :: id in s.q.items;
      CallOne(s0, s1, r);
      DrainAll(s0, AfterCalling(s1, r, 0), r, n, m - 1);
    }
  }

  /** Some run makes that many driver calls after a sweep that left n operations behind. */
  ghost predicate CanCallAfter(s: State, n: nat, calls: nat) {
    exists s' :: Reaches(s, s') && CallsAfter(s', n, calls)
  }

  ghost predicate CallsAfter(s: State, n: nat, calls: nat) {
    s.flow.swept && s.flow.leftover == n && |s.calls| == s.flow.callsAtSweep + calls
  }

  /** For every n the queue can hold, cancel_pending can fail with n operations pending, and the driver is then
      called n + 1 more times. */
  lemma {:induction false} CallsAfterFailedSweep(s: State, n: nat)
    requires Init(s) && s.pcs != [] && n <= s.q.capacity
    ensures CanCallAfter(s, n, n + 1)
  {
    var r := Request("", "d", "c", Never, false);
    Load(s, r, n);
    var s1 :| Reaches(s, s1) && Loaded(s1, r, n) && s1.q.capacity == s.q.capacity;
    var s2 := AfterFailing(s1);
    Fails(s, s1);
    CallOne(s, s2, r);
    var s3 := AfterCalling(s2, r, 0);
    DrainAll(s, s3, r, n, n);
    var s4 :| Reaches(s, s4) && Draining(s4, r, n, 0);
    assert CallsAfter(s4, n, n + 1);
  }

  /** The bound of at most one more call after the stop critical section holds in all runs whose sweep leaves n
      operations behind if and only if n is zero, that is, if and only if the sweep succeeded or had nothing to do. */
  lemma {:induction false} OneMoreCallIff(s: State, n: nat)
    requires Init(s) && s.pcs != [] && n <= s.q.capacity
    ensures (forall calls: nat :: CanCallAfter(s, n, calls) ==> calls <= 1) <==> n == 0
  {
    CallsAfterFailedSweep(s, n);
    forall calls: nat | CanCallAfter(s, n, calls)
      ensures calls <= n + 1
    {
      var s' :| Reaches(s, s') && CallsAfter(s', n, calls);
      var states, actions :| LeadsTo(states, actions, s') && states[0] == s;
      DriverCalls(states, actions, |actions|);
    }
  }
}
