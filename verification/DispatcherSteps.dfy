/** Every step of the dispatcher keeps the invariant, so every state of every run satisfies it. */
module DispatcherSteps {
  import opened Options
  import opened ControlTypes
  import opened Fifo
  import opened Dispatcher
  import opened DispatcherInvariant

  /** The invariant: its three groups of facts. */
  ghost predicate Inv(s: State) {
    CallerInv(s) && HistoryInv(s) && WorkInv(s)
  }

  lemma CancelCounts(done: seq<Completion>, workerDone: seq<OpId>, cancelled: seq<OpId>, counted: nat, w: Worker,
                     c: Completion)
    requires DoneInv(done, workerDone, cancelled, counted, w)
    requires counted < |cancelled| && c.id == cancelled[counted]
    ensures DoneInv(done + [c], workerDone, cancelled, counted + 1, w)
  {
    assert cancelled[..counted + 1] == cancelled[..counted] + [c.id];
    assert Ids(done + [c]) == Ids(done) + [c.id];
  }
  lemma {:induction false} StatusCounts(c: Statuses, done: seq<Completion>, d: Completion)
    requires StatusInv(c, done)
    ensures StatusInv(CountStatus(c, d.result.status), done + [d])
  {
    assert (done + [d])[..|done|] == done;
  }

  lemma CompleteCounts(done: seq<Completion>, workerDone: seq<OpId>, cancelled: seq<OpId>, counted: nat, w: Worker,
                       c: Completion, w': Worker)
    requires DoneInv(done, workerDone, cancelled, counted, w) && !w.InCallback?
    requires w' == InCallback(c.id) || w' == Waiting
    ensures DoneInv(done + [c], if w' == Waiting then workerDone + [c.id] else workerDone, cancelled, counted, w')
  {
    assert Ids(done + [c]) == Ids(done) + [c.id];
  }

  lemma {:induction false} SubmitKeepsLock(s: State, t: Tid, a: SubmitAction, s': State)
    requires LockOk(s)
    requires t < |s.pcs| && SubmitStep(s, t, a, s')
    ensures LockOk(s')
  {}

  lemma {:induction false} SubmitKeepsStop(s: State, t: Tid, a: SubmitAction, s': State)
    requires LockOk(s) && StopOk(s) && SweepOk(s)
    requires t < |s.pcs| && SubmitStep(s, t, a, s')
    ensures StopOk(s') && SweepOk(s')
  {}

  lemma {:induction false} SubmitKeepsJoin(s: State, t: Tid, a: SubmitAction, s': State)
    requires JoinOk(s)
    requires t < |s.pcs| && SubmitStep(s, t, a, s')
    ensures JoinOk(s')
  {}

  lemma {:induction false} CallKeepsActive(s: State, t: Tid, request: Request, s': State)
    requires ActiveOk(s)
    requires t < |s.pcs| && SubmitStep(s, t, Call(request), s')
    ensures ActiveOk(s')
  {}

  lemma {:induction false} SubmitKeepsActive(s: State, t: Tid, a: SubmitAction, s': State)
    requires ThreadsOk(s) && ActiveOk(s)
    requires t < |s.pcs| && SubmitStep(s, t, a, s')
    ensures ActiveOk(s')
  {
    if a.Call? {
      CallKeepsActive(s, t, a.request, s');
    }
  }

  lemma {:induction false} SubmitKeepsThread(s: State, t: Tid, a: SubmitAction, s': State)
    requires ThreadsOk(s) && ActiveOk(s)
    requires t < |s.pcs| && SubmitStep(s, t, a, s')
    ensures ThreadsOk(s')
  {}

  lemma {:induction false} SubmitKeepsAnswers(s: State, t: Tid, a: SubmitAction, s': State)
    requires LockOk(s) && StopOk(s) && AnswersOk(s) && LagOk(s)
    requires t < |s.pcs| && SubmitStep(s, t, a, s')
    ensures AnswersOk(s') && LagOk(s')
  {}

  lemma {:induction false} SubmitKeepsAccept(s: State, t: Tid, a: SubmitAction, s': State)
    requires ThreadsOk(s) && ActiveOk(s) && AcceptOk(s)
    requires t < |s.pcs| && SubmitStep(s, t, a, s')
    ensures AcceptOk(s')
  {}

  lemma {:induction false} SubmitKeepsCount(s: State, t: Tid, a: SubmitAction, s': State)
    requires ThreadsOk(s) && ActiveOk(s) && CountOk(s)
    requires t < |s.pcs| && SubmitStep(s, t, a, s')
    ensures CountOk(s')
  {}

  lemma {:induction false} AnswerCounted(c: Tally, log: seq<SubmitResult>, r: SubmitResult)
    requires AnswerCounts(c, log)
    ensures AnswerCounts(CountOutcome(c, r), log + [r])
  {
    assert (log + [r])[..|log|] == log;
  }

  lemma {:induction false} SubmitKeepsResults(s: State, t: Tid, a: SubmitAction, s': State)
    requires ResultsOk(s)
    requires t < |s.pcs| && SubmitStep(s, t, a, s')
    ensures ResultsOk(s')
  {
    if |s'.subs.answers| > |s.subs.answers| {
      AnswerCounted(s.tally, s.subs.answers, s'.subs.answers[|s.subs.answers|]);
    }
  }

  lemma {:induction false} SubmitKeepsFlow(s: State, t: Tid, a: SubmitAction, s': State)
    requires LockOk(s) && StopOk(s) && SweepOk(s) && FlowOk(s)
    requires t < |s.pcs| && SubmitStep(s, t, a, s')
    ensures FlowOk(s')
  {}

  lemma {:induction false} SubmitKeepsDone(s: State, t: Tid, a: SubmitAction, s': State)
    requires DoneOk(s) && StatusOk(s) && ExecutedOk(s) && OrderOk(s)
    requires t < |s.pcs| && SubmitStep(s, t, a, s')
    ensures DoneOk(s') && StatusOk(s') && ExecutedOk(s') && OrderOk(s')
  {}

  lemma {:induction false} SubmitKeepsWork(s: State, t: Tid, a: SubmitAction, s': State)
    requires WorkerOk(s) && LogOk(s) && GatesOk(s)
    requires t < |s.pcs| && SubmitStep(s, t, a, s')
    ensures WorkerOk(s') && LogOk(s') && GatesOk(s')
  {}

  lemma {:induction false} StopKeepsLock(s: State, t: Tid, a: StopAction, s': State)
    requires LockOk(s)
    requires t < |s.pcs| && StopStep(s, t, a, s')
    ensures LockOk(s')
  {}

  lemma {:induction false} StopKeepsStop(s: State, t: Tid, a: StopAction, s': State)
    requires LockOk(s) && StopOk(s)
    requires t < |s.pcs| && StopStep(s, t, a, s')
    ensures StopOk(s')
  {}

  lemma {:induction false} StopKeepsSweep(s: State, t: Tid, a: StopAction, s': State)
    requires StopOk(s) && SweepOk(s)
    requires t < |s.pcs| && StopStep(s, t, a, s')
    ensures SweepOk(s')
  {}

  lemma {:induction false} StopKeepsJoin(s: State, t: Tid, a: StopAction, s': State)
    requires JoinOk(s) && StopOk(s)
    requires t < |s.pcs| && StopStep(s, t, a, s')
    ensures JoinOk(s')
  {}

  lemma {:induction false} StopKeepsActive(s: State, t: Tid, a: StopAction, s': State)
    requires ThreadsOk(s) && ActiveOk(s)
    requires t < |s.pcs| && StopStep(s, t, a, s')
    ensures ThreadsOk(s') && ActiveOk(s')
  {}

  lemma {:induction false} StopKeepsAnswers(s: State, t: Tid, a: StopAction, s': State)
    requires LockOk(s) && AnswersOk(s) && LagOk(s)
    requires t < |s.pcs| && StopStep(s, t, a, s')
    ensures AnswersOk(s') && LagOk(s')
  {}

  lemma {:induction false} StopKeepsFlow(s: State, t: Tid, a: StopAction, s': State)
    requires StopOk(s) && SweepOk(s) && FlowOk(s)
    requires t < |s.pcs| && StopStep(s, t, a, s')
    ensures FlowOk(s')
  {}

  lemma {:induction false} StopKeepsDone(s: State, t: Tid, a: StopAction, s': State)
    requires StopOk(s) && SweepOk(s) && DoneOk(s) && StatusOk(s)
    requires t < |s.pcs| && StopStep(s, t, a, s')
    ensures DoneOk(s') && StatusOk(s')
  {
    if a.CancelOne? {
      StatusCounts(s.statuses, s.done, s'.done[|s.done|]);
      CancelCounts(s.done, s.flow.workerDone, s.flow.cancelled, s.flow.cancelCounted, s.worker, s'.done[|s.done|]);
    }
  }

  lemma {:induction false} StopKeepsRest(s: State, t: Tid, a: StopAction, s': State)
    requires AcceptOk(s) && CountOk(s) && ResultsOk(s) && ExecutedOk(s) && WorkerOk(s) && GatesOk(s) && OrderOk(s)
    requires StopOk(s) && SweepOk(s)
    requires t < |s.pcs| && StopStep(s, t, a, s')
    ensures AcceptOk(s') && CountOk(s') && ResultsOk(s') && ExecutedOk(s') && WorkerOk(s') && GatesOk(s') && OrderOk(s')
  {}

  lemma {:induction false} StopKeepsLog(s: State, t: Tid, a: StopAction, s': State)
    requires LogOk(s)
    requires t < |s.pcs| && StopStep(s, t, a, s')
    ensures LogOk(s')
  {}

  lemma {:induction false} StopKeepsBudget(s: State, t: Tid, a: StopAction, s': State)
    requires StopOk(s) && SweepOk(s) && BudgetOk(s)
    requires t < |s.pcs| && StopStep(s, t, a, s')
    ensures BudgetOk(s')
  {}

  lemma {:induction false} JoinKeepsStop(s: State, t: Tid, a: JoinAction, s': State)
    requires LockOk(s) && StopOk(s) && SweepOk(s)
    requires t < |s.pcs| && JoinStep(s, t, a, s')
    ensures LockOk(s') && StopOk(s') && SweepOk(s')
  {}

  lemma {:induction false} JoinKeepsJoin(s: State, t: Tid, a: JoinAction, s': State)
    requires JoinOk(s)
    requires t < |s.pcs| && JoinStep(s, t, a, s')
    ensures JoinOk(s')
  {}

  lemma {:induction false} JoinKeepsThreads(s: State, t: Tid, a: JoinAction, s': State)
    requires ThreadsOk(s) && ActiveOk(s) && AnswersOk(s) && LagOk(s) && LockOk(s)
    requires t < |s.pcs| && JoinStep(s, t, a, s')
    ensures ThreadsOk(s') && ActiveOk(s') && AnswersOk(s') && LagOk(s')
  {}

  lemma {:induction false} JoinKeepsHistory(s: State, t: Tid, a: JoinAction, s': State)
    requires AcceptOk(s) && CountOk(s) && ResultsOk(s) && FlowOk(s) && DoneOk(s) && StatusOk(s)
    requires t < |s.pcs| && JoinStep(s, t, a, s')
    ensures AcceptOk(s') && CountOk(s') && ResultsOk(s') && FlowOk(s') && DoneOk(s') && StatusOk(s')
  {}

  lemma {:induction false} JoinKeepsWork(s: State, t: Tid, a: JoinAction, s': State)
    requires ExecutedOk(s) && WorkerOk(s) && LogOk(s) && GatesOk(s) && OrderOk(s) && BudgetOk(s)
    requires t < |s.pcs| && JoinStep(s, t, a, s')
    ensures ExecutedOk(s') && WorkerOk(s') && LogOk(s') && GatesOk(s') && OrderOk(s') && BudgetOk(s')
  {}

  lemma {:induction false} OtherKeepsCallers(s: State, a: Action, s': State)
    requires LockOk(s) && StopOk(s) && SweepOk(s) && JoinOk(s) && ThreadsOk(s) && ActiveOk(s) && AnswersOk(s)
    requires LagOk(s) && AcceptOk(s) && CountOk(s) && ResultsOk(s) && FlowOk(s) && DoneOk(s) && StatusOk(s)
    requires OtherStep(s, a, s')
    ensures LockOk(s') && StopOk(s') && SweepOk(s') && JoinOk(s') && ThreadsOk(s') && ActiveOk(s') && AnswersOk(s')
    ensures LagOk(s') && AcceptOk(s') && CountOk(s') && ResultsOk(s') && FlowOk(s') && DoneOk(s') && StatusOk(s')
  {}

  lemma {:induction false} OtherKeepsWork(s: State, a: Action, s': State)
    requires FlowOk(s) && ExecutedOk(s) && WorkerOk(s) && LogOk(s) && GatesOk(s) && OrderOk(s) && BudgetOk(s)
    requires OtherStep(s, a, s')
    ensures ExecutedOk(s') && WorkerOk(s') && LogOk(s') && GatesOk(s') && OrderOk(s') && BudgetOk(s')
  {}

  lemma {:induction false} WorkKeepsCallers(s: State, a: WorkerAction, s': State)
    requires LockOk(s) && StopOk(s) && ThreadsOk(s) && ActiveOk(s) && AnswersOk(s) && LagOk(s)
    requires WorkerStep(s, a, s')
    ensures LockOk(s') && StopOk(s') && ThreadsOk(s') && ActiveOk(s') && AnswersOk(s') && LagOk(s')
  {}

  lemma {:induction false} WorkKeepsSweep(s: State, a: WorkerAction, s': State)
    requires StopOk(s) && SweepOk(s)
    requires WorkerStep(s, a, s')
    ensures SweepOk(s')
  {}

  lemma {:induction false} WorkKeepsJoin(s: State, a: WorkerAction, s': State)
    requires StopOk(s) && JoinOk(s)
    requires WorkerStep(s, a, s')
    ensures JoinOk(s')
  {}

  lemma {:induction false} WorkKeepsAccept(s: State, a: WorkerAction, s': State)
    requires AcceptOk(s) && CountOk(s) && ResultsOk(s)
    requires WorkerStep(s, a, s')
    ensures AcceptOk(s') && CountOk(s') && ResultsOk(s')
  {}

  lemma {:induction false} TakeKeepsFlow(q: Queue<OpId>, f: Flow, started: bool, now: int)
    requires FlowInv(q, f, Waiting, started) && q.items != [] && f.cancelled == []
    ensures FlowInv(Pop(q), f.(taken := f.taken + [q.items[0]]), Held(q.items[0], now), started)
  {
    assert q.items == [q.items[0]] + q.items[1..];
    assert f.taken + [] + q.items == f.taken + [q.items[0]] + [] + q.items[1..];
  }

  lemma {:induction false} WorkKeepsFlow(s: State, a: WorkerAction, s': State)
    requires SweepOk(s) && FlowOk(s)
    requires WorkerStep(s, a, s')
    ensures FlowOk(s')
  {
    if a.Take? {
      TakeKeepsFlow(s.q, s.flow, s.life.started, s.clock);
    }
  }

  lemma {:induction false} WorkKeepsDone(s: State, a: WorkerAction, s': State)
    requires DoneOk(s) && StatusOk(s)
    requires WorkerStep(s, a, s')
    ensures DoneOk(s') && StatusOk(s')
  {
    if a.Complete? {
      StatusCounts(s.statuses, s.done, s.worker.done);
      CompleteCounts(s.done, s.flow.workerDone, s.flow.cancelled, s.flow.cancelCounted, s.worker, s.worker.done,
                     s'.worker);
    }
  }

  lemma {:induction false} WorkKeepsExecuted(s: State, a: WorkerAction, s': State)
    requires ExecutedOk(s) && WorkerOk(s)
    requires WorkerStep(s, a, s')
    ensures ExecutedOk(s')
  {}

  lemma {:induction false} WorkKeepsWorker(s: State, a: WorkerAction, s': State)
    requires WorkerOk(s) && FlowOk(s) && AcceptOk(s) && ActiveOk(s)
    requires WorkerStep(s, a, s')
    ensures WorkerOk(s')
  {
    if a == Take {
      assert s.q.items[0] in s.flow.accepted;
    }
  }

  lemma {:induction false} WorkKeepsLog(s: State, a: WorkerAction, s': State)
    requires WorkerOk(s) && LogOk(s)
    requires WorkerStep(s, a, s')
    ensures LogOk(s')
  {}

  lemma {:induction false} WorkKeepsGate(s: State, a: WorkerAction, s': State)
    requires WorkerOk(s) && GatesOk(s)
    requires WorkerStep(s, a, s')
    ensures GatesOk(s')
  {}

  lemma {:induction false} TakeKeepsOrder(calls: seq<DriverCall>, taken: seq<OpId>, id: OpId, w: Worker, w': Worker)
    requires OrderInv(calls, taken, |taken|, w)
    ensures OrderInv(calls, taken + [id], |taken|, w')
  {}

  lemma {:induction false} BeginKeepsOrder(calls: seq<DriverCall>, taken: seq<OpId>, call: DriverCall, finished: nat,
                                           w: Worker, w': Worker)
    requires OrderInv(calls, taken, finished, w) && MayCall(w) && !MayCall(w')
    requires finished <= call.position < |taken| && taken[call.position] == call.id
    ensures OrderInv(calls + [call], taken, finished, w')
  {}

  lemma {:induction false} WorkKeepsOrder(s: State, a: WorkerAction, s': State)
    requires FlowOk(s) && OrderOk(s)
    requires WorkerStep(s, a, s')
    ensures OrderOk(s')
  {
    match a
    case Take => TakeKeepsOrder(s.calls, s.flow.taken, s.q.items[0], s.worker, s'.worker);
    case Begin => BeginKeepsOrder(s.calls, s.flow.taken, s'.worker.call, |s.flow.workerDone|, s.worker, s'.worker);
    case _ =>
  }

  lemma {:induction false} WorkKeepsBudget(s: State, a: WorkerAction, s': State)
    requires StopOk(s) && SweepOk(s) && BudgetOk(s)
    requires WorkerStep(s, a, s')
    ensures BudgetOk(s')
  {}

  lemma {:induction false} SubmitKeeps(s: State, t: Tid, a: SubmitAction, s': State)
    requires Inv(s) && t < |s.pcs| && SubmitStep(s, t, a, s')
    ensures Inv(s')
  {
    SubmitKeepsLock(s, t, a, s');
    SubmitKeepsStop(s, t, a, s');
    SubmitKeepsJoin(s, t, a, s');
    SubmitKeepsActive(s, t, a, s');
    SubmitKeepsThread(s, t, a, s');
    SubmitKeepsAnswers(s, t, a, s');
    SubmitKeepsAccept(s, t, a, s');
    SubmitKeepsCount(s, t, a, s');
    SubmitKeepsResults(s, t, a, s');
    SubmitKeepsFlow(s, t, a, s');
    SubmitKeepsDone(s, t, a, s');
    SubmitKeepsWork(s, t, a, s');
  }

  lemma {:induction false} StopKeeps(s: State, t: Tid, a: StopAction, s': State)
    requires Inv(s) && t < |s.pcs| && StopStep(s, t, a, s')
    ensures Inv(s')
  {
    StopKeepsLock(s, t, a, s');
    StopKeepsStop(s, t, a, s');
    StopKeepsSweep(s, t, a, s');
    StopKeepsJoin(s, t, a, s');
    StopKeepsActive(s, t, a, s');
    StopKeepsAnswers(s, t, a, s');
    StopKeepsFlow(s, t, a, s');
    StopKeepsDone(s, t, a, s');
    StopKeepsRest(s, t, a, s');
    StopKeepsLog(s, t, a, s');
    StopKeepsBudget(s, t, a, s');
  }

  lemma {:induction false} JoinKeeps(s: State, t: Tid, a: JoinAction, s': State)
    requires Inv(s) && t < |s.pcs| && JoinStep(s, t, a, s')
    ensures Inv(s')
  {
    JoinKeepsStop(s, t, a, s');
    JoinKeepsJoin(s, t, a, s');
    JoinKeepsThreads(s, t, a, s');
    JoinKeepsHistory(s, t, a, s');
    JoinKeepsWork(s, t, a, s');
  }

  lemma {:induction false} WorkKeeps(s: State, a: WorkerAction, s': State)
    requires Inv(s) && WorkerStep(s, a, s')
    ensures Inv(s')
  {
    WorkKeepsCallers(s, a, s');
    WorkKeepsSweep(s, a, s');
    WorkKeepsJoin(s, a, s');
    WorkKeepsAccept(s, a, s');
    WorkKeepsFlow(s, a, s');
    WorkKeepsDone(s, a, s');
    WorkKeepsExecuted(s, a, s');
    WorkKeepsWorker(s, a, s');
    WorkKeepsLog(s, a, s');
    WorkKeepsGate(s, a, s');
    WorkKeepsOrder(s, a, s');
    WorkKeepsBudget(s, a, s');
  }

  /** Every step keeps the invariant. */
  lemma {:induction false} InvStep(s: State, a: Action, s': State)
    requires Inv(s) && Step(s, a, s')
    ensures Inv(s')
  {
    match a
    case Submit(t, submit) => SubmitKeeps(s, t, submit, s');
    case Stop(t, stop) => StopKeeps(s, t, stop, s');
    case Join(t, join) => JoinKeeps(s, t, join, s');
    case Work(work) => WorkKeeps(s, work, s');
    case _ =>
      OtherKeepsCallers(s, a, s');
      OtherKeepsWork(s, a, s');
  }

  lemma {:induction false} InitInv(s: State)
    requires Init(s)
    ensures Inv(s)
  {
    InitCaller(s);
    InitHistory(s);
    InitWork(s);
  }

  lemma {:induction false} InitAt(states: seq<State>, actions: seq<Action>, i: nat)
    requires Run(states, actions) && i == 0
    ensures Inv(states[i])
  {
    InitInv(states[i]);
  }

  lemma {:induction false} StepOfRun(states: seq<State>, actions: seq<Action>, i: nat)
    requires Run(states, actions) && 0 < i < |states|
    ensures Step(states[i - 1], actions[i - 1], states[i])
  {
    assert StepAt(states, actions, i - 1);
  }

  lemma {:induction false} InvLater(states: seq<State>, actions: seq<Action>, i: nat)
    requires Run(states, actions) && 0 < i < |states|
    ensures Inv(states[i])
    decreases i, 0
  {
    var s, a, s' := states[i - 1], actions[i - 1], states[i];
    StepOfRun(states, actions, i);
    RunInv(states, actions, i - 1);
    InvStep(s, a, s');
  }

  /** Every state of every run satisfies the invariant. */
  lemma {:induction false} RunInv(states: seq<State>, actions: seq<Action>, i: nat)
    requires Run(states, actions) && i < |states|
    ensures Inv(states[i])
    decreases i, 1
  {
    if i > 0 {
      InvLater(states, actions, i);
    } else {
      InitAt(states, actions, i);
    }
  }

  // ----- reachable states -----

  /** The state occurs in some run. */
  ghost predicate Reachable(s: State) {
    exists states, actions :: LeadsTo(states, actions, s)
  }

  ghost predicate LeadsTo(states: seq<State>, actions: seq<Action>, s: State) {
    Run(states, actions) && states[|actions|] == s
  }

  lemma {:induction false} Extended(states: seq<State>, actions: seq<Action>, a: Action, s': State)
    requires Run(states, actions) && Step(states[|actions|], a, s')
    ensures Run(states + [s'], actions + [a])
  {
    forall i | 0 <= i < |actions + [a]|
      ensures StepAt(states + [s'], actions + [a], i)
    {
      if i < |actions| {
        assert StepAt(states, actions, i);
      }
    }
  }

  /** Some run leads from the one state to the other. */
  ghost predicate Reaches(s0: State, s: State) {
    exists states, actions :: LeadsTo(states, actions, s) && states[0] == s0
  }

  lemma {:induction false} InitReaches(s: State)
    requires Init(s)
    ensures Reaches(s, s)
  {
    assert LeadsTo([s], [], s);
  }

  lemma {:induction false} StepReaches(s0: State, s: State, a: Action, s': State)
    requires Reaches(s0, s) && Step(s, a, s')
    ensures Reaches(s0, s')
  {
    var states, actions :| LeadsTo(states, actions, s) && states[0] == s0;
    Extended(states, actions, a, s');
    assert LeadsTo(states + [s'], actions + [a], s');
  }

  lemma {:induction false} ReachableInv(s: State)
    requires Reachable(s)
    ensures Inv(s)
  {
    var states, actions :| LeadsTo(states, actions, s);
    RunInv(states, actions, |actions|);
  }
}
