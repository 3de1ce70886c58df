/** A shutdown ends: as long as no new work comes from outside, every step of the threads involved brings it
    closer to its end, by a measure that is never negative. */
module GatewayTermination {
  import opened Options
  import opened Lifecycle
  import opened Gateway
  import opened GatewayInvariant
  import opened GatewayTheorems
  import opened GatewayProgress
  import D = Dispatcher
  import DI = DispatcherInvariant
  import DS = DispatcherSteps
  import DT = DispatcherTheorems
  import P = DataPlane

  // ----- the dispatcher -----

  /** What a call of submit still has to do, including the work an accepted operation makes for the worker. */
  ghost function SubmitWork(p: D.Pc): nat {
    match p
    case Submitting(_) => 12
    case Pushing(_) => 11
    case Counting(_, _) => 1
    case _ => 0
  }

  ghost function AllSubmitWork(pcs: seq<D.Pc>): nat {
    if pcs == [] then 0 else SubmitWork(pcs[0]) + AllSubmitWork(pcs[1..])
  }

  lemma {:induction false} WorkUpdate(pcs: seq<D.Pc>, t: nat, p: D.Pc)
    requires t < |pcs|
    ensures AllSubmitWork(pcs[t := p]) == AllSubmitWork(pcs) - SubmitWork(pcs[t]) + SubmitWork(p)
  {
    if t == 0 {
      assert pcs[0 := p][1..] == pcs[1..];
    } else {
      assert pcs[t := p][1..] == pcs[1..][t - 1 := p];
      WorkUpdate(pcs[1..], t - 1, p);
    }
  }

  ghost function StopWork(l: D.Life, f: D.Flow, closed: bool): int {
    if l.stopComplete then 0
    else if f.swept then 1 + 2 * |f.cancelled| - f.cancelDone - f.cancelCounted
    else if !l.stopping then 4 else if closed then 2 else 3
  }

  ghost function JoinWork(pcs: seq<D.Pc>, joined: bool): nat {
    if pcs == [] then 0
    else if joined then if pcs[0] == D.JoinWaiting then 1 else 0
    else if pcs[0] == D.Joining then 1 else if pcs[0] == D.JoinWaiting then 2 else 3
  }

  ghost function QueueWork(d: D.State): nat {
    9 * |d.q.items| + DT.WorkerSteps(d.worker)
  }

  ghost function ControlWork(d: D.State): int {
    QueueWork(d) + AllSubmitWork(d.pcs) + StopWork(d.life, d.flow, d.q.closed) + JoinWork(d.pcs, d.life.joined)
  }

  lemma {:induction false} SubmitKeepsStop(d: D.State, t: D.Tid, a: D.SubmitAction, d': D.State)
    requires t < |d.pcs| && D.SubmitStep(d, t, a, d')
    ensures StopWork(d'.life, d'.flow, d'.q.closed) == StopWork(d.life, d.flow, d.q.closed)
    ensures d'.life.joined == d.life.joined
  {}

  lemma {:induction false} SubmitFalls(d: D.State, t: D.Tid, a: D.SubmitAction, d': D.State)
    requires t < |d.pcs| && t != 0 && D.SubmitStep(d, t, a, d') && !a.Call?
    ensures ControlWork(d') <= ControlWork(d) - 1
  {
    WorkUpdate(d.pcs, t, d'.pcs[t]);
    SubmitKeepsStop(d, t, a, d');
  }

  lemma {:induction false} StopFalls(d: D.State, a: D.StopAction, d': D.State)
    requires 0 < |d.pcs| && D.StopStep(d, 0, a, d') && DI.StopOk(d) && DI.SweepOk(d)
    ensures ControlWork(d') <= ControlWork(d) - 1
  {
    WorkUpdate(d.pcs, 0, d'.pcs[0]);
  }

  lemma {:induction false} JoinFalls(d: D.State, a: D.JoinAction, d': D.State)
    requires 0 < |d.pcs| && D.JoinStep(d, 0, a, d') && a != D.Fail && (a == D.Wait ==> !d.life.joined)
    requires DI.JoinOk(d)
    ensures ControlWork(d') <= ControlWork(d) - 1
  {
    WorkUpdate(d.pcs, 0, d'.pcs[0]);
  }

  lemma {:induction false} WorkerFalls(d: D.State, a: D.WorkerAction, d': D.State)
    requires DI.FlowOk(d) && D.WorkerStep(d, a, d')
    ensures ControlWork(d') <= ControlWork(d) - 1
  {
    DT.WorkFalls(d, a, d');
    assert d'.pcs == d.pcs && d'.q.closed == d.q.closed;
  }

  // ----- the data plane -----

  /** The steps one batch takes from the queue to the end. */
  ghost function BatchWork(publishers: nat): nat {
    2 * publishers + 3
  }

  ghost function ProcessorWork(w: P.Worker, publishers: nat): int {
    match w
    case NotStarted => 0
    case Exited => 0
    case Waiting => 1
    case Handling(_) => 2 * publishers + 3
    case Publishing(_, next) => 2 * (publishers - next) + 2
    case Offering(_, next) => 2 * (publishers - next) + 1
  }

  ghost function DataWork(s: P.State): int {
    Cost(|s.raw.items|, BatchWork(s.publishers)) + ProcessorWork(s.worker, s.publishers)
  }

  /** n times each. */
  ghost function Cost(n: nat, each: nat): nat {
    if n == 0 then 0 else Cost(n - 1, each) + each
  }

  lemma {:induction false} DataFalls(s: P.State, a: P.Action, s': P.State)
    requires P.Step(s, a, s') && !a.Begin? && !a.Shut? && !a.Store?
    ensures DataWork(s') <= DataWork(s) - 1
  {}

  // ----- the scheduler thread -----

  ghost function PollWork(w: Poller, batch: nat): nat {
    match w
    case Unborn => 0
    case Gone => 0
    case Resting => 1
    case Unlocking(_) => 2
    case Storing(_, _) => batch + 3
    case Polling(_) => batch + 4
    case AtGate(_) => batch + 5
  }

  // ----- the whole shutdown -----

  ghost function ScriptWork(phase: Phase): int {
    if phase.Closing? then |phase.script| - phase.j + 1 else 0
  }

  ghost function Measure(s: State): int {
    ScriptWork(s.life.phase) + ControlWork(s.d) + DataWork(s.data)
        + PollWork(s.polls.poller, BatchWork(s.data.publishers))
  }

  /** New work from outside: a submission, a poll that is started, a batch that a driver delivers. */
  ghost predicate FromOutside(a: Action) {
    match a
    case Control(Submit(_, submit)) => submit.Call?
    case Poll(poll) => poll.Pick?
    case Data(data) => data.Store?
    case _ => false
  }

  /** A step of one of the gateway's threads; the others are time passing, a thread noting that controls are
      accepted, and callers of stop() that wait or return. */
  ghost predicate Works(a: Action) {
    match a
    case Life(life) => life.CloseNext? || life.Finish?
    case Admit(_) => false
    case Control(control) => !control.Tick?
    case _ => true
  }

  lemma {:induction false} PollFalls(s: State, a: PollAction, s': State)
    requires PollStep(s, a, s') && !a.Pick?
    ensures Measure(s') <= Measure(s) - 1
  {}

  lemma {:induction false} ControlFalls(s: State, a: D.Action, s': State)
    requires DI.FlowOk(s.d) && DI.StopOk(s.d) && DI.SweepOk(s.d) && DI.JoinOk(s.d) && s.d.pcs != []
    requires ControlStep(s, a, s') && !FromOutside(Control(a))
    ensures Measure(s') <= Measure(s) - if a.Tick? then 0 else 1
  {
    match a
    case Submit(t, submit) => SubmitFalls(s.d, t, submit, s'.d);
    case Stop(_, stop) => StopFalls(s.d, stop, s'.d);
    case Join(_, join) => JoinFalls(s.d, join, s'.d);
    case Work(work) => WorkerFalls(s.d, work, s'.d);
    case _ =>
  }

  lemma {:induction false} MeasureFalls(s: State, a: Action, s': State)
    requires DI.FlowOk(s.d) && DI.StopOk(s.d) && DI.SweepOk(s.d) && DI.JoinOk(s.d) && s.d.pcs != []
    requires PhaseInv(s.up, s.life.phase)
    requires Step(s, a, s') && Shutting(s.life.phase) && !FromOutside(a)
    ensures Measure(s') <= Measure(s) - if Works(a) then 1 else 0
  {
    match a
    case Life(_) =>
    case Control(control) => ControlFalls(s, control, s');
    case Poll(poll) => PollFalls(s, poll, s');
    case Data(data) => DataFalls(s.data, data, s'.data);
    case Admit(_) =>
  }

  // ----- runs -----

  /** What the measure of a state relies on. */
  ghost predicate Measurable(s: State) {
    PhaseInv(s.up, s.life.phase) && s.d.pcs != []
  }

  lemma {:induction false} PhaseIsSound(states: seq<State>, actions: seq<Action>, i: nat)
    requires Run(states, actions) && i < |states|
    ensures Measurable(states[i])
  {
    RunInv(states, actions, i);
    ControllerRun(states, actions, i);
  }

  lemma {:induction false} FallsFrom(s: State, a: Action, s': State)
    requires DS.Reachable(s.d) && Measurable(s)
    requires Step(s, a, s') && Shutting(s.life.phase) && !FromOutside(a)
    ensures Shutting(s'.life.phase) && Measure(s') <= Measure(s) - if Works(a) then 1 else 0
  {
    DS.ReachableInv(s.d);
    MeasureFalls(s, a, s');
    StillShutting(s, a, s');
  }

  lemma {:induction false} StillShutting(s: State, a: Action, s': State)
    requires Step(s, a, s') && Shutting(s.life.phase)
    ensures Shutting(s'.life.phase)
  {}

  lemma {:induction false} MeasureIsNat(states: seq<State>, actions: seq<Action>, i: nat)
    requires Run(states, actions) && i < |states|
    ensures 0 <= Measure(states[i])
  {
    PhaseIsSound(states, actions, i);
    DataInv(states, actions, i);
    ControlPart(states, actions, i);
  }

  lemma {:induction false} ControlPart(states: seq<State>, actions: seq<Action>, i: nat)
    requires Run(states, actions) && i < |states|
    ensures 0 <= ControlWork(states[i].d)
  {
    DispatcherReachable(states, actions, i);
    DS.ReachableInv(states[i].d);
  }

  /** How many of actions[i..j] are steps of the gateway's own threads. */
  ghost function WorkDone(actions: seq<Action>, i: nat, j: nat): nat
    requires i <= j <= |actions|
    decreases j
  {
    if i == j then 0 else WorkDone(actions, i, j - 1) + if Works(actions[j - 1]) then 1 else 0
  }

  lemma {:induction false} RunFalls(states: seq<State>, actions: seq<Action>, i: nat)
    requires Run(states, actions) && i < |actions| && Shutting(states[i].life.phase) && !FromOutside(actions[i])
    ensures Shutting(states[i + 1].life.phase)
    ensures Measure(states[i + 1]) <= Measure(states[i]) - if Works(actions[i]) then 1 else 0
  {
    PhaseIsSound(states, actions, i);
    DispatcherReachable(states, actions, i);
    assert StepAt(states, actions, i);
    FallsFrom(states[i], actions[i], states[i + 1]);
  }

  lemma {:induction false} WorkIsPaid(states: seq<State>, actions: seq<Action>, i: nat, j: nat)
    requires Run(states, actions) && i <= j < |states| && Shutting(states[i].life.phase)
    requires forall k | i <= k < j :: !FromOutside(actions[k])
    ensures Shutting(states[j].life.phase) && WorkDone(actions, i, j) <= Measure(states[i]) - Measure(states[j])
    decreases j
  {
    if i < j {
      WorkIsPaid(states, actions, i, j - 1);
      RunFalls(states, actions, j - 1);
    }
  }

  /** In every run, once a shutdown has begun, the gateway's threads take at most Measure further steps before new
      work comes from outside: neither a waiting caller nor the clock can prolong it. */
  lemma {:induction false} ShutdownIsBounded(states: seq<State>, actions: seq<Action>, i: nat, j: nat)
    requires Run(states, actions) && i <= j < |states| && Shutting(states[i].life.phase)
    requires forall k | i <= k < j :: !FromOutside(actions[k])
    ensures WorkDone(actions, i, j) <= Measure(states[i])
  {
    WorkIsPaid(states, actions, i, j);
    MeasureIsNat(states, actions, j);
  }

  lemma {:induction false} MovesAreWork(s: State, a: Action)
    requires Advances(s, a) || exists op :: InCloseOf(s.life, op) && Serves(s, op, a)
    ensures Works(a) && !FromOutside(a)
  {}

  /** The run continues into that one, by steps of the gateway's own threads alone. */
  ghost predicate Continues(states: seq<State>, actions: seq<Action>, states': seq<State>, actions': seq<Action>) {
    && Run(states', actions') && states <= states' && actions <= actions'
    && forall k | |actions| <= k < |actions'| :: Works(actions'[k]) && !FromOutside(actions'[k])
  }

  lemma {:induction false} ContinuesFurther(states: seq<State>, actions: seq<Action>, s': State, a: Action,
                                            states': seq<State>, actions': seq<Action>)
    requires Continues(states + [s'], actions + [a], states', actions') && Works(a) && !FromOutside(a)
    ensures Continues(states, actions, states', actions')
  {
    assert actions'[|actions|] == (actions + [a])[|actions|];
  }

  /** One of the gateway's own threads can take a step. */
  ghost predicate CanWork(s: State) {
    exists a, s' :: Step(s, a, s') && Works(a) && !FromOutside(a)
  }

  lemma {:induction false} OneMove(states: seq<State>, actions: seq<Action>)
    requires Run(states, actions) && states[|actions|].life.phase.Closing?
    ensures CanWork(states[|actions|])
  {
    var s := states[|actions|];
    ShutdownNeverStuck(states, actions, |actions|);
    var a, s' :| Step(s, a, s') && (Advances(s, a) || exists op :: InCloseOf(s.life, op) && Serves(s, op, a));
    MovesAreWork(s, a);
  }

  ghost predicate CanFinish(states: seq<State>, actions: seq<Action>) {
    exists states': seq<State>, actions': seq<Action> ::
      Continues(states, actions, states', actions') && states'[|actions'|].life.phase.Over?
  }

  /** From every state of every shutdown, whatever has happened before, the gateway's own threads can bring it to
      its end, and by the bound above they cannot go on for longer than Measure without doing so. */
  lemma {:induction false} ShutdownCanFinish(states: seq<State>, actions: seq<Action>)
    requires Run(states, actions) && Shutting(states[|actions|].life.phase)
    ensures CanFinish(states, actions)
    decreases Measure(states[|actions|])
  {
    if states[|actions|].life.phase.Over? {
      assert Continues(states, actions, states, actions);
    } else {
      OneMove(states, actions);
      var a, s' :| Step(states[|actions|], a, s') && Works(a) && !FromOutside(a);
      var longer, more := states + [s'], actions + [a];
      Extended(states, actions, a, s');
      RunFalls(longer, more, |actions|);
      MeasureIsNat(longer, more, |more|);
      ShutdownCanFinish(longer, more);
      var states': seq<State>, actions': seq<Action> :|
        Continues(longer, more, states', actions') && states'[|actions'|].life.phase.Over?;
      ContinuesFurther(states, actions, s', a, states', actions');
    }
  }

  // ----- the threads in stop() -----

  /** At most one thread does the work of a shutdown, and only while there is one. */
  ghost predicate OneAtWork(l: Lifetime) {
    && (forall u | 0 <= u < |l.callers| && l.callers[u] == AtWork :: l.phase.Closing? && l.phase.cause == StopCalled)
    && (forall u, v | 0 <= u < v < |l.callers| :: !(l.callers[u] == AtWork && l.callers[v] == AtWork))
    && (l.phase == Fresh || l.phase.Starting? || l.phase == Running
        ==> forall u | 0 <= u < |l.callers| :: l.callers[u] == Away)
  }

  lemma {:induction false} OneAtWorkStep(shape: Shape, up: seq<Op>, l: Lifetime, a: LifeAction, l': Lifetime)
    requires LifeMoves(shape, up, l, a, l') && OneAtWork(l)
    ensures OneAtWork(l')
  {}

  lemma {:induction false} RunOneAtWork(states: seq<State>, actions: seq<Action>, i: nat)
    requires Run(states, actions) && i < |states|
    ensures OneAtWork(states[i].life)
  {
    if i > 0 {
      RunOneAtWork(states, actions, i - 1);
      assert StepAt(states, actions, i - 1);
      var s, a, s' := states[i - 1], actions[i - 1], states[i];
      if a.Life? {
        OneAtWorkStep(s.shape, s.up, s.life, a.life, s'.life);
      }
    }
  }

  /** At the end of a shutdown the thread that did the work has returned, and every thread that has been waiting can:
      no call of stop() is left behind. */
  lemma CallersReturn(states: seq<State>, actions: seq<Action>, i: nat, u: nat)
    requires Run(states, actions) && i < |states| && states[i].life.phase.Over? && u < |states[i].life.callers|
    ensures states[i].life.callers[u] != AtWork
    ensures states[i].life.callers[u] == AwaitingEnd ==>
              exists s' :: Step(states[i], Life(SeeEnd(u)), s') && s'.life.callers[u] == Away
  {
    RunOneAtWork(states, actions, i);
    var s := states[i];
    if s.life.callers[u] == AwaitingEnd {
      var s' := s.(life := s.life.(callers := s.life.callers[u := Away]));
      assert Step(s, Life(SeeEnd(u)), s');
    }
  }
}
