/**
  The whole of GatewayRuntime (src/core/runtime.cpp) as one step relation: the thread inside start() or
  stop() walks the scripts of module Lifecycle, while the control dispatcher and its callers, the scheduler
  thread, the processing worker and the drivers take steps of their own in between. Plugins may do anything:
  throw from start(), poll at length, push batches at any time, and answer publish() as they like.
*/
module Gateway {
  import opened Options
  import opened Lifecycle
  import D = Dispatcher
  import P = DataPlane

  /** Why the runtime is being shut down: stop(), or the f-th call of start() threw. */
  datatype Cause = StopCalled | StartFailed(f: nat)

  datatype Phase =
    | Fresh
    | Starting(k: nat)                  // inside the k-th call of start()
    | Running
    | Closing(cause: Cause, script: seq<Op>, j: nat)  // inside the j-th call of the shutdown
    | Over(cause: Cause, script: seq<Op>)

  /** A thread in stop(): elsewhere, doing the work, or waiting for the thread that does. */
  datatype Caller = Away | AtWork | AwaitingEnd

  /** lifecycle_mutex_ is held throughout start() and otherwise only for single steps. `log` lists the calls
      that have returned or thrown. */
  datatype Lifetime = Lifetime(phase: Phase, accepting: bool, callers: seq<Caller>, log: seq<Op>)

  /** The scheduler thread running poll_group. */
  datatype Poller =
    | Unborn
    | Resting
    | AtGate(device: string)
    | Polling(device: string)               // inside driver.poll, gate held
    | Storing(device: string, batch: P.Batch)
    | Unlocking(device: string)
    | Gone

  /** AcquisitionStats: polls whose batch was handed to the raw queue, polls that threw, expired deadlines, and
      batches the queue had no room for. */
  datatype Acquired = Acquired(polls: nat, errors: nat, misses: nat, queueFull: nat)

  datatype Polls = Polls(poller: Poller, stopping: bool, stats: Acquired)

  /** `up` is the script of start(). `admitted` are the threads that have seen accepting_controls_ set and not
      called the dispatcher yet. Activity 0 of the dispatcher is the thread inside start() or stop(). */
  datatype State = State(shape: Shape, up: seq<Op>, life: Lifetime, admitted: set<nat>, d: D.State, polls: Polls,
                         data: P.State)

  ghost predicate Init(s: State) {
    && s.up == StartScript(s.shape)
    && s.life == Lifetime(Fresh, false, s.life.callers, [])
    && (forall u | 0 <= u < |s.life.callers| :: s.life.callers[u] == Away)
    && s.admitted == {} && s.polls == Polls(Unborn, false, Acquired(0, 0, 0, 0))
    && D.Init(s.d) && s.d.hasGates && 0 < |s.d.pcs|
    && P.Init(s.data) && s.data.publishers == s.shape.publishers
  }

  function PlanOf(shape: Shape, cause: Cause): Plan {
    match cause
    case StopCalled => StopPlan(shape)
    case StartFailed(f) => RollbackPlan(shape, f)
  }

  function Script(shape: Shape, cause: Cause): seq<Op> {
    DownScript(PlanOf(shape, cause))
  }

  datatype LifeAction =
    | CallStart
    | StartNext | StartThrows          // the current call of start() returns, or throws
    | CallStop(u: nat)
    | CloseNext                        // the current call of the shutdown returns
    | Finish                           // stopped_ set; the thread doing the work returns
    | SeeEnd(u: nat)                   // a waiting thread returns

  datatype PollAction =
    | Pick(device: string)
    | Miss                             // the gate stayed locked until the deadline
    | GateThrows                       // locking the gate threw
    | Lock
    | PollReturns(batch: P.Batch, late: bool)
    | PollThrows
    | Store
    | Unlock
    | Leave

  datatype Action =
    | Life(life: LifeAction)
    | Admit(t: nat)                    // load accepting_controls_, true
    | Control(control: D.Action)
    | Poll(poll: PollAction)
    | Data(data: P.Action)

  ghost predicate InCloseOf(l: Lifetime, op: Op) {
    l.phase.Closing? && l.phase.j < |l.phase.script| && l.phase.script[l.phase.j] == op
  }

  /** The lifecycle's own state. */
  ghost predicate LifeMoves(shape: Shape, up: seq<Op>, l: Lifetime, a: LifeAction, l': Lifetime) {
    match a
    case CallStart => l.phase == Fresh && l' == l.(phase := Starting(0))
    case StartNext =>
      && l.phase.Starting? && l.phase.k < |up|
      && l' == l.(phase := if l.phase.k + 1 == |up| then Running else Starting(l.phase.k + 1),
                  accepting := l.accepting || up[l.phase.k] == Core(AcceptControls), log := l.log + [up[l.phase.k]])
    case StartThrows =>
      && l.phase.Starting? && l.phase.k < |up| && up[l.phase.k] != Core(AcceptControls)
      && var cause := StartFailed(l.phase.k);
         l' == l.(phase := Closing(cause, Script(shape, cause), 0), accepting := false, log := l.log + [up[l.phase.k]])
    case CallStop(u) =>
      && u < |l.callers| && l.callers[u] == Away && !l.phase.Starting?
      && l' == (match l.phase
                case Closing(_, _, _) => l.(callers := l.callers[u := AwaitingEnd])
                case Running =>
                  l.(phase := Closing(StopCalled, Script(shape, StopCalled), 0), accepting := false,
                     callers := l.callers[u := AtWork])
                case _ => l)
    case CloseNext =>
      && l.phase.Closing? && l.phase.j < |l.phase.script|
      && l' == l.(phase := l.phase.(j := l.phase.j + 1), log := l.log + [l.phase.script[l.phase.j]])
    case Finish =>
      && l.phase.Closing? && l.phase.j == |l.phase.script|
      && l' == l.(phase := Over(l.phase.cause, l.phase.script), callers := Released(l.callers))
    case SeeEnd(u) =>
      && u < |l.callers| && l.callers[u] == AwaitingEnd && l.phase.Over?
      && l' == l.(callers := l.callers[u := Away])
  }

  ghost function Released(callers: seq<Caller>): seq<Caller> {
    seq(|callers|, u requires 0 <= u < |callers| => if callers[u] == AtWork then Away else callers[u])
  }

  /** A call of start() returning: what it started. */
  ghost predicate Started(s: State, op: Op, s': State) {
    && (if op == Core(StartDispatcher) then D.Step(s.d, D.Start(0), s'.d) else s'.d == s.d)
    && (if op == Core(StartProcessing) then P.Step(s.data, P.Begin, s'.data) else s'.data == s.data)
    && s'.polls == if op == Core(StartScheduler) then s.polls.(poller := Resting) else s.polls
  }

  /** What a call of a shutdown waits for before it returns. */
  ghost predicate MayReturn(s: State, op: Op) {
    match op
    case Core(JoinScheduler) => s.polls.poller == Gone || s.polls.poller == Unborn
    case Core(StopDispatcher) => s.d.life.stopComplete && s.d.pcs != [] && s.d.pcs[0] == D.Idle
    case Core(JoinDispatcher) => s.d.life.joined && s.d.pcs != [] && s.d.pcs[0] == D.Idle
    case Core(JoinProcessing) => s.data.worker == P.Exited
    case _ => true
  }

  ghost predicate Stopped(s: State, op: Op, s': State) {
    && MayReturn(s, op) && s'.d == s.d
    && s'.polls == (if op == Core(StopScheduler) then s.polls.(stopping := true) else s.polls)
    && (if op == Core(CloseRawQueue) then P.Step(s.data, P.Shut, s'.data) else s'.data == s.data)
  }

  ghost predicate LifeStep(s: State, a: LifeAction, s': State) {
    && LifeMoves(s.shape, s.up, s.life, a, s'.life)
    && s' == s.(life := s'.life, d := s'.d, data := s'.data, polls := s'.polls)
    && match a
       case StartNext => Started(s, s.up[s.life.phase.k], s')
       case CloseNext => Stopped(s, s.life.phase.script[s.life.phase.j], s')
       case _ => s'.d == s.d && s'.data == s.data && s'.polls == s.polls
  }

  /** submit() may be called by any admitted thread and goes on by itself, as do the worker and the clock;
      request_stop() and join() are called once by the shutdown. Joining a thread does not fail. */
  ghost predicate Permitted(s: State, a: D.Action) {
    match a
    case Submit(t, submit) => t != 0 && (submit.Call? ==> t in s.admitted)
    case Stop(t, _) => t == 0 && InCloseOf(s.life, Core(StopDispatcher))
    case Join(t, join) =>
      && t == 0 && InCloseOf(s.life, Core(JoinDispatcher)) && join != D.Fail
      && (join == D.Wait ==> !s.d.life.joined)
    case Work(_) => true
    case Tick(_) => true
    case _ => false
  }

  ghost predicate ControlStep(s: State, a: D.Action, s': State) {
    && Permitted(s, a) && D.Step(s.d, a, s'.d)
    && s' == s.(d := s'.d, admitted := if a.Submit? && a.submit.Call? then s.admitted - {a.t} else s.admitted)
  }

  function CountMiss(stats: Acquired): Acquired {
    stats.(misses := stats.misses + 1)
  }

  function CountThrow(stats: Acquired): Acquired {
    stats.(errors := stats.errors + 1)
  }

  function CountPoll(stats: Acquired, full: bool): Acquired {
    stats.(polls := stats.polls + 1, queueFull := if full then stats.queueFull + 1 else stats.queueFull)
  }

  ghost predicate PollStep(s: State, a: PollAction, s': State) {
    var w, stats := s.polls.poller, s.polls.stats;
    match a
    case Pick(device) => w == Resting && !s.polls.stopping && s' == s.(polls := s.polls.(poller := AtGate(device)))
    case Miss => w.AtGate? && s' == s.(polls := s.polls.(poller := Resting, stats := CountMiss(stats)))
    case GateThrows => w.AtGate? && s' == s.(polls := s.polls.(poller := Resting, stats := CountThrow(stats)))
    case Lock =>
      && w.AtGate? && D.Step(s.d, D.PollLock(w.device), s'.d)
      && s' == s.(polls := s.polls.(poller := Polling(w.device)), d := s'.d)
    case PollReturns(batch, late) =>
      && w.Polling?
      && s' == s.(polls := s.polls.(poller := Storing(w.device, batch),
                                    stats := if late then CountMiss(stats) else stats))
    case PollThrows =>
      && w.Polling?
      && s' == s.(polls := s.polls.(poller := Unlocking(w.device), stats := CountThrow(stats)))
    case Store =>
      && w.Storing? && P.Step(s.data, P.Store(w.batch), s'.data)
      && s' == s.(polls := s.polls.(poller := Unlocking(w.device),
                                    stats := CountPoll(stats, P.Refuses(s.data))), data := s'.data)
    case Unlock =>
      && w.Unlocking? && D.Step(s.d, D.PollUnlock(w.device), s'.d)
      && s' == s.(polls := s.polls.(poller := Resting), d := s'.d)
    case Leave => w == Resting && s.polls.stopping && s' == s.(polls := s.polls.(poller := Gone))
  }

  ghost predicate Step(s: State, a: Action, s': State) {
    match a
    case Life(life) => LifeStep(s, life, s')
    case Admit(t) => s.life.accepting && t != 0 && s' == s.(admitted := s.admitted + {t})
    case Control(control) => ControlStep(s, control, s')
    case Poll(poll) => PollStep(s, poll, s')
    case Data(data) => !data.Begin? && !data.Shut? && P.Step(s.data, data, s'.data) && s' == s.(data := s'.data)
  }

  ghost predicate StepAt(states: seq<State>, actions: seq<Action>, i: nat)
    requires i < |actions| && |states| == |actions| + 1
  {
    Step(states[i], actions[i], states[i + 1])
  }

  ghost predicate Run(states: seq<State>, actions: seq<Action>) {
    && |states| == |actions| + 1 && Init(states[0])
    && forall i | 0 <= i < |actions| :: StepAt(states, actions, i)
  }
}
