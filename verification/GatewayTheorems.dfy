/** What the invariant says about whole runs of the gateway. */
module GatewayTheorems {
  import opened Options
  import opened Acquisition
  import opened Lifecycle
  import opened Gateway
  import opened GatewayInvariant
  import D = Dispatcher
  import DI = DispatcherInvariant
  import DT = DispatcherTheorems
  import P = DataPlane

  // ----- nothing is active on a plugin that is being stopped -----

  ghost predicate Shutting(phase: Phase) {
    phase.Closing? || phase.Over?
  }

  /** The shutdown has reached its m-th call. */
  ghost predicate Reached(phase: Phase, m: nat) {
    Shutting(phase) && m < |phase.script| && (phase.Closing? ==> m <= phase.j)
  }

  ghost predicate Stops(phase: Phase, m: nat, kind: Kind, p: nat) {
    Reached(phase, m) && phase.script[m] == Plugin(Stop, kind, p)
  }

  /** That plugin's stop() has been called; it may or may not have returned. */
  ghost predicate StopBegun(phase: Phase, kind: Kind, p: nat) {
    exists m: nat :: Stops(phase, m, kind, p)
  }

  lemma {:induction false} PlanMatches(shape: Shape, phase: Phase)
    requires Shutting(phase)
    ensures PlanOf(shape, phase.cause).dispatcher <==> Begun(shape, phase, StartDispatcher)
    ensures PlanOf(shape, phase.cause).processing <==> Begun(shape, phase, StartProcessing)
    ensures Begun(shape, phase, StartScheduler) ==> PlanOf(shape, phase.cause).scheduler
  {}

  /** What a call of the shutdown relies on has been done. */
  lemma {:induction false} Relied(s: State, m: nat, step: CoreStep)
    requires ScriptOk(s) && SettledInv(s) && PhaseInv(s.up, s.life.phase) && Reached(s.life.phase, m)
    requires Follows(PlanOf(s.shape, s.life.phase.cause), m, step)
    ensures Settled(s, Core(step))
  {
    var script := s.life.phase.script;
    var k :| 0 <= k < m && script[k] == Core(step);
    assert Past(s.life.phase)[k] == script[k];
  }

  /** Once the first plugin is being stopped, the scheduler thread and the dispatcher's worker are gone, or
      were never started. */
  ghost predicate ProducersGone(s: State) {
    && (s.polls.poller == Gone || s.polls.poller == Unborn)
    && (s.d.life.joined || !s.d.life.started)
  }

  ghost predicate DataDone(s: State) {
    s.data.raw.closed && (s.data.worker == P.Exited || s.data.worker == P.NotStarted)
  }

  lemma {:induction false} GoneByThen(s: State, m: nat)
    requires Inv(s) && Reached(s.life.phase, m)
    requires s.life.phase.script[m].Plugin? && s.life.phase.script[m].verb == Stop
    ensures ProducersGone(s)
    ensures s.life.phase.script[m].kind == Publisher ==> DataDone(s)
  {
    var plan := PlanOf(s.shape, s.life.phase.cause);
    PlanMatches(s.shape, s.life.phase);
    ShutdownOrder(plan, m);
    if plan.scheduler {
      Relied(s, m, JoinScheduler);
    }
    if plan.dispatcher {
      Relied(s, m, JoinDispatcher);
    }
    if s.life.phase.script[m].kind == Publisher {
      Relied(s, m, CloseRawQueue);
      if plan.processing {
        Relied(s, m, JoinProcessing);
      }
    }
  }

  /** Nothing the gateway does involves a plugin of that kind. */
  ghost predicate Inactive(s: State, kind: Kind) {
    match kind
    case Source => !DT.CallbackRunning(s.d)
    case Driver => !s.d.worker.Calling? && !s.polls.poller.Polling?
    case Publisher => !s.data.worker.Offering?
  }

  lemma {:induction false} DispatcherDone(d: D.State)
    requires DS.Inv(d) && (d.life.joined || !d.life.started)
    ensures !DT.CallbackRunning(d) && !d.worker.Calling?
  {
    if d.life.joined {
      DT.JoinedIsQuiet(d);
    }
  }

  lemma {:induction false} StopBegunStays(s: State, a: Action, s': State, kind: Kind, p: nat)
    requires Step(s, a, s') && StopBegun(s.life.phase, kind, p)
    ensures StopBegun(s'.life.phase, kind, p)
  {
    if a.Life? {
      var m: nat :| Stops(s.life.phase, m, kind, p);
      assert Stops(s'.life.phase, m, kind, p);
    }
  }

  lemma {:induction false} StopBegunForGood(states: seq<State>, actions: seq<Action>, i: nat, j: nat, kind: Kind,
                                            p: nat)
    requires Run(states, actions) && i <= j < |states| && StopBegun(states[i].life.phase, kind, p)
    ensures StopBegun(states[j].life.phase, kind, p)
    decreases j
  {
    if i < j {
      StopBegunForGood(states, actions, i, j - 1, kind, p);
      assert StepAt(states, actions, j - 1);
      StopBegunStays(states[j - 1], actions[j - 1], states[j], kind, p);
    }
  }

  /** From the moment a source's stop() is called no completion callback runs; from the moment a driver's is,
      no poll or control runs, on any driver; and from the moment a publisher's is, no publish runs. This holds
      of stop() and of every rollback, whatever all other threads do. */
  lemma NothingActiveAfterStop(states: seq<State>, actions: seq<Action>, i: nat, kind: Kind, p: nat)
    requires Run(states, actions) && i < |states| && StopBegun(states[i].life.phase, kind, p)
    ensures forall j | i <= j < |states| :: Inactive(states[j], kind) && ProducersGone(states[j])
  {
    forall j | i <= j < |states|
      ensures Inactive(states[j], kind) && ProducersGone(states[j])
    {
      StopBegunForGood(states, actions, i, j, kind, p);
      GoneInState(states, actions, j, kind, p);
      DispatcherDoneInState(states, actions, j);
    }
  }

  lemma {:induction false} GoneInState(states: seq<State>, actions: seq<Action>, i: nat, kind: Kind, p: nat)
    requires Run(states, actions) && i < |states| && StopBegun(states[i].life.phase, kind, p)
    ensures ProducersGone(states[i])
    ensures kind == Publisher ==> DataDone(states[i])
  {
    var m: nat :| Stops(states[i].life.phase, m, kind, p);
    RunInv(states, actions, i);
    GoneByThen(states[i], m);
  }

  lemma {:induction false} DispatcherDoneInState(states: seq<State>, actions: seq<Action>, i: nat)
    requires Run(states, actions) && i < |states| && ProducersGone(states[i])
    ensures !DT.CallbackRunning(states[i].d) && !states[i].d.worker.Calling?
  {
    DispatcherReachable(states, actions, i);
    DS.ReachableInv(states[i].d);
    DispatcherDone(states[i].d);
  }

  // ----- no loss -----

  /** Every accepted batch has been delivered to each of the runtime's publishers. */
  ghost predicate NothingLost(s: State) {
    P.NothingLost(s.data) && s.data.publishers == s.shape.publishers
  }

  lemma {:induction false} LostNothing(states: seq<State>, actions: seq<Action>, i: nat)
    requires Run(states, actions) && i < |states| && states[i].data.worker == P.Exited
    ensures NothingLost(states[i])
  {
    DataInv(states, actions, i);
    P.DrainedLosesNothing(states[i].data);
    RunShape(states, actions, i);
  }

  /** When a publisher is first asked to stop, every batch the raw queue ever accepted has been delivered and
      offered once to every publisher, in the order of acceptance; no batch is accepted any more. */
  lemma {:induction false} NoLossBeforePublishersStop(states: seq<State>, actions: seq<Action>, i: nat, p: nat)
    requires Run(states, actions) && i < |states| && StopBegun(states[i].life.phase, Publisher, p)
    requires states[i].data.worker != P.NotStarted
    ensures NothingLost(states[i]) && states[i].data.raw.closed
  {
    GoneInState(states, actions, i, Publisher, p);
    LostNothing(states, actions, i);
  }

  // ----- stop() -----

  ghost predicate AllGone(s: State) {
    ProducersGone(s) && DataDone(s)
  }

  lemma {:induction false} OverIsDone(s: State)
    requires Inv(s) && s.life.phase.Over?
    ensures AllGone(s)
  {
    var plan, past := PlanOf(s.shape, s.life.phase.cause), Past(s.life.phase);
    PlanMatches(s.shape, s.life.phase);
    assert plan.scheduler ==> past[DownAt(plan, JoinScheduler)] == Core(JoinScheduler);
    assert plan.dispatcher ==> past[DownAt(plan, JoinDispatcher)] == Core(JoinDispatcher);
    assert past[DownAt(plan, CloseRawQueue)] == Core(CloseRawQueue);
    assert plan.processing ==> past[DownAt(plan, JoinProcessing)] == Core(JoinProcessing);
  }

  /** A call of stop() returns in this step. */
  ghost predicate StopReturns(s: State, a: Action, s': State) {
    && a.Life?
    && match a.life
       case CallStop(u) => u < |s'.life.callers| && s'.life.callers[u] == Away
       case Finish => true
       case SeeEnd(_) => true
       case _ => false
  }

  lemma {:induction false} OverForGood(states: seq<State>, actions: seq<Action>, i: nat, j: nat)
    requires Run(states, actions) && i <= j < |states| && states[i].life.phase.Over?
    ensures states[j].life.phase == states[i].life.phase && states[j].life.log == states[i].life.log
    decreases j
  {
    if i < j {
      OverForGood(states, actions, i, j - 1);
      assert StepAt(states, actions, j - 1);
    }
  }

  /** However many threads call stop(), and even while a failed start() rolls back, a call of stop() on a runtime
      whose start() was called returns only when everything has been stopped; from then on no further
      lifecycle call is ever made. */
  lemma StopReturnsWhenDone(states: seq<State>, actions: seq<Action>, i: nat)
    requires Run(states, actions) && i < |actions|
    requires states[i].life.phase != Fresh && StopReturns(states[i], actions[i], states[i + 1])
    ensures forall j | i < j < |states| ::
              states[j].life.phase.Over? && AllGone(states[j]) && states[j].life.log == states[i + 1].life.log
  {
    assert StepAt(states, actions, i);
    forall j | i < j < |states|
      ensures states[j].life.phase.Over? && AllGone(states[j]) && states[j].life.log == states[i + 1].life.log
    {
      OverForGood(states, actions, i + 1, j);
      RunInv(states, actions, j);
      OverIsDone(states[j]);
    }
  }

  lemma {:induction false} CallsInUp(shape: Shape, n: nat, verb: Verb, kind: Kind)
    requires n <= |StartScript(shape)| && verb != Start
    ensures Calls(StartScript(shape)[..n], verb, kind) == []
  {
    if n > 0 {
      var up := StartScript(shape);
      assert up[..n][..n - 1] == up[..n - 1];
      CallsInUp(shape, n - 1, verb, kind);
    }
  }

  /** The calls of stop() on plugins of a kind, over the whole life of the runtime. */
  ghost function Stopped(s: State, kind: Kind): seq<nat> {
    Calls(s.life.log, Stop, kind)
  }

  ghost predicate InModeOrder(shape: Shape, drivers: seq<nat>) {
    && (forall d :: d in drivers <==> 0 <= d < |shape.modes|)
    && (forall k, l | 0 <= k < l < |drivers| ::
          drivers[k] != drivers[l] && (HasMode(shape, drivers[k], Mode.Poll) ==> HasMode(shape, drivers[l], Mode.Poll)))
  }

  lemma {:induction false} FinalLog(s: State, kind: Kind)
    requires ScriptOk(s) && LogOk(s) && s.life.phase.Over?
    ensures Stopped(s, kind) == Calls(Script(s.shape, s.life.phase.cause), Stop, kind)
  {
    var cause := s.life.phase.cause;
    var opening := Opening(s.up, cause);
    CallsConcat(opening, s.life.phase.script, Stop, kind);
    assert s.up[..|s.up|] == s.up;
    CallsInUp(s.shape, |opening|, Stop, kind);
  }

  lemma {:induction false} StartedLog(s: State, kind: Kind)
    requires ScriptOk(s) && LogOk(s) && s.life.phase.Over? && s.life.phase.cause.StartFailed?
    ensures Calls(s.life.log, Start, kind) == Calls(s.up[..s.life.phase.cause.f + 1], Start, kind)
  {
    var cause := s.life.phase.cause;
    CallsConcat(Opening(s.up, cause), s.life.phase.script, Start, kind);
    DownCalls(PlanOf(s.shape, cause), Start, kind);
  }

  /** After a successful start every plugin has received exactly one stop() by the end: publishers and sources
      backwards, Push drivers before Poll drivers. */
  lemma {:induction false} StoppedOnce(states: seq<State>, actions: seq<Action>, i: nat)
    requires Run(states, actions) && i < |states| && states[i].life.phase.Over?
    requires states[i].life.phase.cause == StopCalled
    ensures Stopped(states[i], Publisher) == Backwards(states[i].shape.publishers)
    ensures Stopped(states[i], Source) == Backwards(states[i].shape.sources)
    ensures InModeOrder(states[i].shape, Stopped(states[i], Driver))
  {
    RunInv(states, actions, i);
    FinalLog(states[i], Publisher);
    FinalLog(states[i], Source);
    FinalLog(states[i], Driver);
    StopStopsEverything(states[i].shape);
  }

  /** After a failed start the plugins stopped are exactly those whose start() was called, in reverse order. */
  lemma {:induction false} RolledBackOnce(states: seq<State>, actions: seq<Action>, i: nat, kind: Kind)
    requires Run(states, actions) && i < |states| && states[i].life.phase.Over?
    requires states[i].life.phase.cause.StartFailed?
    ensures Stopped(states[i], kind) == Reversed(Calls(states[i].life.log, Start, kind))
    ensures Calls(states[i].life.log, Start, kind) == Forwards(|Calls(states[i].life.log, Start, kind)|)
  {
    RunInv(states, actions, i);
    FinalLog(states[i], kind);
    StartedLog(states[i], kind);
    RollbackStopsWhatStarted(states[i].shape, states[i].life.phase.cause.f, kind);
  }

  /** When the runtime is over after a start that got as far as the processing worker, in particular after every
      successful start, nothing was lost between the raw queue and the publishers. */
  lemma {:induction false} NoLossAtEnd(states: seq<State>, actions: seq<Action>, i: nat)
    requires Run(states, actions) && i < |states| && states[i].life.phase.Over?
    requires Begun(states[i].shape, states[i].life.phase, StartProcessing)
    ensures NothingLost(states[i])
  {
    RunInv(states, actions, i);
    OverIsDone(states[i]);
    LostNothing(states, actions, i);
  }

  // ----- admission -----

  /** A thread passes the check of submit_control only after start() has begun to accept controls and before any
      shutdown, by stop() or by a failed start, has begun. */
  lemma AdmittedOnlyWhileOpen(states: seq<State>, actions: seq<Action>)
    requires Run(states, actions)
    ensures forall i | 0 <= i < |actions| && actions[i].Admit? ::
              Begun(states[i].shape, states[i].life.phase, AcceptControls) && !Shutting(states[i].life.phase)
  {
    forall i | 0 <= i < |actions| && actions[i].Admit?
      ensures Begun(states[i].shape, states[i].life.phase, AcceptControls) && !Shutting(states[i].life.phase)
    {
      RunInv(states, actions, i);
      assert StepAt(states, actions, i);
    }
  }

  // ----- device exclusion -----

  /** The driver of that device is executing a control request. */
  ghost predicate Controlling(d: D.State, device: string) {
    d.worker.Calling? && d.worker.call.id < |d.subs.requests| && d.subs.requests[d.worker.call.id].deviceId == device
  }

  /** At most one of poll and control is active on a device, in every reachable state. */
  lemma {:induction false} DeviceExclusion(states: seq<State>, actions: seq<Action>, i: nat, device: string)
    requires Run(states, actions) && i < |states|
    ensures !(Controlling(states[i].d, device) && states[i].polls.poller == Polling(device))
  {
    RunInv(states, actions, i);
    RunHasGates(states, actions, i);
    DispatcherReachable(states, actions, i);
    DS.ReachableInv(states[i].d);
    DT.DisciplineInState(states[i].d);
    assert HoldsGate(states[i].polls.poller, device) <==> ByPoll(states[i].d.gates, device);
  }
}
