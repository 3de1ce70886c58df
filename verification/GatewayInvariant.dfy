/** What every step of the whole gateway keeps. */
module GatewayInvariant {
  import opened Options
  import opened Lifecycle
  import opened Gateway
  import D = Dispatcher
  import DI = DispatcherInvariant
  import DS = DispatcherSteps
  import P = DataPlane

  /** Whether one of start()'s own steps has returned. */
  ghost predicate Begun(shape: Shape, phase: Phase, step: CoreStep) {
    match phase
    case Fresh => false
    case Starting(k) => At(shape, step) < k
    case Running => true
    case Closing(cause, _, _) => cause.StartFailed? ==> At(shape, step) < cause.f
    case Over(cause, _) => cause.StartFailed? ==> At(shape, step) < cause.f
  }

  ghost predicate CauseInv(up: seq<Op>, cause: Cause) {
    cause.StartFailed? ==> cause.f < |up|
  }

  ghost predicate PhaseInv(up: seq<Op>, phase: Phase) {
    match phase
    case Starting(k) => k < |up|
    case Closing(cause, script, j) => CauseInv(up, cause) && j <= |script|
    case Over(cause, _) => CauseInv(up, cause)
    case _ => true
  }

  /** The scripts are the ones the shape and the cause call for. */
  ghost predicate ScriptInv(shape: Shape, up: seq<Op>, phase: Phase) {
    && up == StartScript(shape)
    && (phase.Closing? || phase.Over? ==> phase.script == Script(shape, phase.cause))
  }

  /** Each part of the runtime has been started exactly when start() got that far. */
  ghost predicate BegunInv(shape: Shape, phase: Phase, accepting: bool, dispatcher: bool, poller: Poller,
                           worker: P.Worker) {
    && (dispatcher <==> Begun(shape, phase, StartDispatcher))
    && (worker != P.NotStarted <==> Begun(shape, phase, StartProcessing))
    && (poller != Unborn <==> Begun(shape, phase, StartScheduler))
    && (accepting <==> Begun(shape, phase, AcceptControls) && !phase.Closing? && !phase.Over?)
  }

  /** The calls made so far. */
  ghost function Expected(up: seq<Op>, phase: Phase): seq<Op>
    requires PhaseInv(up, phase)
  {
    match phase
    case Fresh => []
    case Starting(k) => up[..k]
    case Running => up
    case Closing(cause, script, j) => Opening(up, cause) + script[..j]
    case Over(cause, script) => Opening(up, cause) + script
  }

  /** The calls start() made before the shutdown began. */
  ghost function Opening(up: seq<Op>, cause: Cause): seq<Op>
    requires CauseInv(up, cause)
  {
    match cause
    case StopCalled => up
    case StartFailed(f) => up[..f + 1]
  }

  ghost predicate LogInv(up: seq<Op>, life: Lifetime) {
    PhaseInv(up, life.phase) && life.log == Expected(up, life.phase)
  }

  /** What a shutdown call leaves true for good once it has returned. */
  ghost predicate Settled(s: State, op: Op) {
    match op
    case Core(StopScheduler) => s.polls.stopping
    case Core(JoinScheduler) => s.polls.poller == Gone || s.polls.poller == Unborn
    case Core(StopDispatcher) => s.d.life.stopComplete
    case Core(JoinDispatcher) => s.d.life.joined
    case Core(CloseRawQueue) => s.data.raw.closed
    case Core(JoinProcessing) => s.data.worker == P.Exited
    case _ => true
  }

  /** The calls of the shutdown that have returned. */
  ghost function Past(phase: Phase): seq<Op> {
    match phase
    case Closing(_, script, j) => if j <= |script| then script[..j] else script
    case Over(_, script) => script
    case _ => []
  }

  ghost predicate SettledInv(s: State) {
    forall m | 0 <= m < |Past(s.life.phase)| :: Settled(s, Past(s.life.phase)[m])
  }

  ghost predicate HoldsGate(w: Poller, device: string) {
    (w.Polling? || w.Storing? || w.Unlocking?) && w.device == device
  }

  /** The gates owned by polls are exactly the scheduler thread's. */
  ghost predicate GateInv(gates: map<string, D.Holder>, w: Poller) {
    forall x :: (x in gates && gates[x] == D.ByPoll) <==> HoldsGate(w, x)
  }

  ghost predicate BegunOk(s: State) {
    PhaseInv(s.up, s.life.phase)
    && BegunInv(s.shape, s.life.phase, s.life.accepting, s.d.life.started, s.polls.poller, s.data.worker)
  }
  ghost predicate LogOk(s: State) { LogInv(s.up, s.life) }
  ghost predicate ScriptOk(s: State) { ScriptInv(s.shape, s.up, s.life.phase) }
  ghost predicate GatesOk(s: State) { GateInv(s.d.gates, s.polls.poller) }

  ghost predicate Inv(s: State) {
    BegunOk(s) && ScriptOk(s) && LogOk(s) && SettledInv(s) && GatesOk(s)
  }

  // ----- steps of the parts -----

  lemma {:induction false} SubmitFrame(d: D.State, t: D.Tid, a: D.SubmitAction, d': D.State)
    requires t < |d.pcs| && D.SubmitStep(d, t, a, d')
    ensures d'.life.started == d.life.started && d'.life.joined == d.life.joined
    ensures d'.life.stopComplete == d.life.stopComplete
  {}

  lemma {:induction false} WorkFrame(d: D.State, a: D.WorkerAction, d': D.State)
    requires D.WorkerStep(d, a, d')
    ensures d'.life == d.life
  {}

  lemma {:induction false} DispatcherFrame(d: D.State, a: D.Action, d': D.State)
    requires D.Step(d, a, d')
    ensures d'.life.started == (d.life.started || a.Start?)
  {
    match a
    case Submit(t, submit) => SubmitFrame(d, t, submit, d');
    case Work(work) => WorkFrame(d, work, d');
    case _ =>
  }

  lemma {:induction false} DispatcherKeepsGates(d: D.State, a: D.Action, d': D.State)
    requires D.Step(d, a, d')
    ensures d'.hasGates == d.hasGates
  {}

  lemma {:induction false} DispatcherSettles(d: D.State, a: D.Action, d': D.State)
    requires D.Step(d, a, d')
    ensures d.life.joined ==> d'.life.joined
    ensures d.life.stopComplete ==> d'.life.stopComplete
  {
    match a
    case Submit(t, submit) => SubmitFrame(d, t, submit, d');
    case Work(work) => WorkFrame(d, work, d');
    case _ =>
  }

  ghost predicate ByPoll(gates: map<string, D.Holder>, x: string) {
    x in gates && gates[x] == D.ByPoll
  }

  lemma {:induction false} CallersLeaveGates(d: D.State, a: D.Action, d': D.State)
    requires D.Step(d, a, d') && (a.Submit? || a.Stop? || a.Join?)
    ensures d'.gates == d.gates
  {}

  lemma {:induction false} DispatcherGates(d: D.State, a: D.Action, d': D.State, x: string)
    requires DI.GatesOk(d) && D.Step(d, a, d')
    ensures ByPoll(d'.gates, x) == ((ByPoll(d.gates, x) || a == D.PollLock(x)) && a != D.PollUnlock(x))
  {
    if a.Submit? || a.Stop? || a.Join? {
      CallersLeaveGates(d, a, d');
    }
  }

  /** Every step leaves the dispatcher and the data plane alone or takes one of their own steps. */
  lemma {:induction false} DispatcherMoves(s: State, a: Action, s': State)
    requires Step(s, a, s')
    ensures s'.d == s.d || exists c :: D.Step(s.d, c, s'.d)
  {}

  lemma {:induction false} DataMoves(s: State, a: Action, s': State)
    requires Step(s, a, s')
    ensures s'.data == s.data || exists c :: P.Step(s.data, c, s'.data)
  {}

  // ----- gates -----

  lemma {:induction false} GatesKept(s: State, a: Action, s': State)
    requires GatesOk(s) && BegunOk(s) && Placed(s.shape, s.up) && DI.GatesOk(s.d) && Step(s, a, s')
    ensures GatesOk(s')
  {
    forall x
      ensures ByPoll(s'.d.gates, x) <==> HoldsGate(s'.polls.poller, x)
    {
      if s'.d != s.d {
        DispatcherGates(s.d, ControlOf(s, a), s'.d, x);
      }
      assert ByPoll(s.d.gates, x) <==> HoldsGate(s.polls.poller, x);
    }
  }

  /** The dispatcher's share of a step that involves it. */
  ghost function ControlOf(s: State, a: Action): D.Action {
    match a
    case Control(c) => c
    case Poll(Lock) => if s.polls.poller.AtGate? then D.PollLock(s.polls.poller.device) else D.Tick(0)
    case Poll(Unlock) => if s.polls.poller.Unlocking? then D.PollUnlock(s.polls.poller.device) else D.Tick(0)
    case _ => D.Start(0)
  }

  // ----- the lifecycle -----

  lemma {:induction false} LifeKeepsLog(shape: Shape, up: seq<Op>, l: Lifetime, a: LifeAction, l': Lifetime)
    requires LogInv(up, l) && LifeMoves(shape, up, l, a, l') && up != []
    ensures LogInv(up, l')
  {
    match a
    case StartNext =>
      assert up[..l.phase.k + 1] == up[..l.phase.k] + [up[l.phase.k]];
      assert up[..|up|] == up;
    case StartThrows =>
      assert up[..l.phase.k + 1] == up[..l.phase.k] + [up[l.phase.k]];
    case CloseNext =>
      var script, j := l.phase.script, l.phase.j;
      assert script[..j + 1] == script[..j] + [script[j]];
    case Finish =>
      assert l.phase.script[..l.phase.j] == l.phase.script;
    case _ =>
  }

  lemma {:induction false} LifeMovesOnly(s: State, a: Action, s': State)
    requires Step(s, a, s')
    ensures s'.shape == s.shape && s'.up == s.up
    ensures if a.Life? then LifeMoves(s.shape, s.up, s.life, a.life, s'.life) else s'.life == s.life
  {}

  lemma {:induction false} LifeKept(s: State, a: Action, s': State)
    requires ScriptOk(s) && LogOk(s) && Step(s, a, s')
    ensures ScriptOk(s') && LogOk(s')
  {
    LifeMovesOnly(s, a, s');
    if a.Life? {
      LifeKeepsLog(s.shape, s.up, s.life, a.life, s'.life);
    }
  }

  lemma {:induction false} LifeKeepsBegun(s: State, a: LifeAction, s': State)
    requires BegunOk(s) && PhaseInv(s.up, s'.life.phase) && Placed(s.shape, s.up) && LifeStep(s, a, s')
    ensures BegunOk(s')
  {
    if s'.d != s.d {
      DispatcherFrame(s.d, D.Start(0), s'.d);
    }
  }

  lemma {:induction false} BegunKept(s: State, a: Action, s': State)
    requires BegunOk(s) && PhaseInv(s.up, s'.life.phase) && Placed(s.shape, s.up) && Step(s, a, s')
    ensures BegunOk(s')
  {
    if a.Life? {
      LifeKeepsBegun(s, a.life, s');
    } else if s'.d != s.d {
      DispatcherFrame(s.d, ControlOf(s, a), s'.d);
    }
  }

  /** Where start()'s own steps are in its script. */
  ghost predicate Placed(shape: Shape, up: seq<Op>) {
    && |up| == At(shape, StartScheduler) + 1
    && (forall k | 0 <= k < |up| ::
          && (up[k] == Core(StartDispatcher) <==> k == At(shape, StartDispatcher))
          && (up[k] == Core(StartProcessing) <==> k == At(shape, StartProcessing))
          && (up[k] == Core(AcceptControls) <==> k == At(shape, AcceptControls))
          && (up[k] == Core(StartScheduler) <==> k == At(shape, StartScheduler)))
  }

  lemma {:induction false} ScriptIsPlaced(shape: Shape)
    ensures Placed(shape, StartScript(shape))
  {}

  lemma {:induction false} SettledStays(s: State, a: Action, s': State, op: Op)
    requires Step(s, a, s') && Settled(s, op) && (s.life.phase.Closing? || s.life.phase.Over?)
    ensures Settled(s', op)
  {
    if s'.d != s.d {
      DispatcherSettles(s.d, ControlOf(s, a), s'.d);
    }
  }

  lemma {:induction false} SettledKept(s: State, a: Action, s': State)
    requires SettledInv(s) && PhaseInv(s.up, s.life.phase) && Step(s, a, s')
    ensures SettledInv(s')
  {
    forall m | 0 <= m < |Past(s'.life.phase)|
      ensures Settled(s', Past(s'.life.phase)[m])
    {
      if m < |Past(s.life.phase)| {
        SettledStays(s, a, s', Past(s.life.phase)[m]);
      }
    }
  }

  /** Every step keeps the invariant, given that the dispatcher's gates are in order. */
  lemma {:induction false} InvStep(s: State, a: Action, s': State)
    requires Inv(s) && DI.GatesOk(s.d) && Step(s, a, s')
    ensures Inv(s')
  {
    LifeKept(s, a, s');
    ScriptIsPlaced(s.shape);
    BegunKept(s, a, s');
    SettledKept(s, a, s');
    GatesKept(s, a, s');
  }

  lemma {:induction false} InitInv(s: State)
    requires Init(s)
    ensures Inv(s)
  {}

  // ----- runs -----

  /** The run ends in that state. */
  ghost predicate LeadsTo(states: seq<State>, actions: seq<Action>, s: State) {
    Run(states, actions) && states[|actions|] == s
  }

  lemma {:induction false} Extended(states: seq<State>, actions: seq<Action>, a: Action, s': State)
    requires Run(states, actions) && Step(states[|actions|], a, s')
    ensures Run(states + [s'], actions + [a])
  {
    forall i | 0 <= i < |actions + [a]|
      ensures StepAt(states + [s'], actions + [a], i)
    {
      if i < |actions| {
        assert StepAt(states, actions, i);
      }
    }
  }

  /** Every run of the gateway contains a run of the dispatcher: what holds of every dispatcher run holds here. */
  lemma {:induction false} DispatcherRun(states: seq<State>, actions: seq<Action>, i: nat)
    returns (ds: seq<D.State>, das: seq<D.Action>)
    requires Run(states, actions) && i < |states|
    ensures DS.LeadsTo(ds, das, states[i].d)
  {
    if i == 0 {
      ds, das := [states[0].d], [];
    } else {
      ds, das := DispatcherRun(states, actions, i - 1);
      assert StepAt(states, actions, i - 1);
      DispatcherMoves(states[i - 1], actions[i - 1], states[i]);
      if states[i].d != states[i - 1].d {
        var a :| D.Step(states[i - 1].d, a, states[i].d);
        DS.Extended(ds, das, a, states[i].d);
        ds, das := ds + [states[i].d], das + [a];
      }
    }
  }

  lemma {:induction false} DispatcherReachable(states: seq<State>, actions: seq<Action>, i: nat)
    requires Run(states, actions) && i < |states|
    ensures DS.Reachable(states[i].d)
  {
    var ds, das := DispatcherRun(states, actions, i);
  }

  lemma {:induction false} DispatcherGatesInv(states: seq<State>, actions: seq<Action>, i: nat)
    requires Run(states, actions) && i < |states|
    ensures DI.GatesOk(states[i].d)
  {
    DispatcherReachable(states, actions, i);
    DS.ReachableInv(states[i].d);
  }

  lemma {:induction false} DataInv(states: seq<State>, actions: seq<Action>, i: nat)
    requires Run(states, actions) && i < |states|
    ensures forall k | 0 <= k <= i :: P.Inv(states[k].data)
  {
    if i == 0 {
      P.InitInv(states[0].data);
    } else {
      DataInv(states, actions, i - 1);
      assert StepAt(states, actions, i - 1);
      DataMoves(states[i - 1], actions[i - 1], states[i]);
      if states[i].data != states[i - 1].data {
        var a :| P.Step(states[i - 1].data, a, states[i].data);
        P.InvStep(states[i - 1].data, a, states[i].data);
      }
    }
  }

  lemma {:induction false} InvNext(states: seq<State>, actions: seq<Action>, i: nat)
    requires Run(states, actions) && 0 < i < |states| && Inv(states[i - 1])
    ensures forall k | i - 1 <= k <= i :: Inv(states[k])
  {
    DispatcherGatesInv(states, actions, i - 1);
    assert StepAt(states, actions, i - 1);
    InvStep(states[i - 1], actions[i - 1], states[i]);
  }

  /** Every state of every run satisfies the invariant. */
  lemma {:induction false} RunInv(states: seq<State>, actions: seq<Action>, i: nat)
    requires Run(states, actions) && i < |states|
    ensures forall k | 0 <= k <= i :: Inv(states[k])
  {
    if i == 0 {
      InitInv(states[i]);
    } else {
      RunInv(states, actions, i - 1);
      InvNext(states, actions, i);
    }
  }

  /** The number of plugins never changes, and neither does having gates. */
  lemma {:induction false} RunShape(states: seq<State>, actions: seq<Action>, i: nat)
    requires Run(states, actions) && i < |states|
    ensures states[i].shape == states[0].shape && states[i].data.publishers == states[i].shape.publishers
  {
    if i > 0 {
      RunShape(states, actions, i - 1);
      assert StepAt(states, actions, i - 1);
    }
  }

  lemma {:induction false} RunHasGates(states: seq<State>, actions: seq<Action>, i: nat)
    requires Run(states, actions) && i < |states|
    ensures states[i].d.hasGates
  {
    if i > 0 {
      RunHasGates(states, actions, i - 1);
      assert StepAt(states, actions, i - 1);
      DispatcherMoves(states[i - 1], actions[i - 1], states[i]);
      if states[i].d != states[i - 1].d {
        var a :| D.Step(states[i - 1].d, a, states[i].d);
        DispatcherKeepsGates(states[i - 1].d, a, states[i].d);
      }
    }
  }
}
