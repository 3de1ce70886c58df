/** A shutdown never gets stuck: whatever call it is in, either the call can return or the very thread it waits for
    can take a step, which is neither new work from outside nor giving up on a gate. This takes only that plugin
    calls return. */
module GatewayProgress {
  import opened Options
  import opened Lifecycle
  import opened Gateway
  import opened GatewayInvariant
  import opened GatewayTheorems
  import D = Dispatcher
  import DI = DispatcherInvariant
  import DS = DispatcherSteps
  import DT = DispatcherTheorems
  import P = DataPlane
  import F = Fifo

  /** The dispatcher's worker takes a step, without giving up on a gate. */
  ghost predicate WorkerGoesOn(a: Action) {
    a.Control? && a.control.Work? && !DT.GivesUp(a.control.work)
  }

  /** The holder of the dispatcher's lifecycle lock goes on. */
  ghost predicate HolderGoesOn(s: State, a: Action) {
    a.Control? && DT.HolderStep(s.d, a.control)
  }

  /** The scheduler thread waits for a gate that a control request holds. */
  ghost predicate PollerWaits(s: State) {
    var w := s.polls.poller;
    w.AtGate? && w.device in s.d.gates && s.d.gates[w.device] == D.ByControl
  }

  /** A step of the thread that a shutdown call waits for, or of the one that thread waits for. */
  ghost predicate Serves(s: State, op: Op, a: Action) {
    match op
    case Core(JoinScheduler) =>
      (a.Poll? && !a.poll.Pick? && !a.poll.Miss? && !a.poll.GateThrows?) || (PollerWaits(s) && WorkerGoesOn(a))
    case Core(StopDispatcher) =>
      if s.d.life.lock.Some? then HolderGoesOn(s, a) else a.Control? && a.control.Stop?
    case Core(JoinDispatcher) =>
      if s.d.life.lock.Some? then HolderGoesOn(s, a) else (a.Control? && a.control.Join?) || WorkerGoesOn(a)
    case Core(JoinProcessing) => a.Data? && !a.data.Store?
    case _ => false
  }

  ghost predicate CanServe(s: State, op: Op) {
    exists a, s' :: Step(s, a, s') && Serves(s, op, a)
  }

  /** The shutdown's own next step: its current call returns, or it is over. */
  ghost predicate Advances(s: State, a: Action) {
    a.Life? && (a.life.CloseNext? || a.life.Finish?)
  }

  /** The shutdown goes on, or what its current call waits for does. */
  ghost predicate CanMove(s: State) {
    exists a, s' :: Step(s, a, s') && (Advances(s, a) || exists op :: InCloseOf(s.life, op) && Serves(s, op, a))
  }

  // ----- the thread inside start() or stop(), as a caller of the dispatcher -----

  ghost predicate ControllerInv(pcs: seq<D.Pc>, l: Lifetime) {
    && pcs != []
    && (forall t | 0 < t < |pcs| :: pcs[t] == D.Idle || DI.IsSubmitting(pcs[t]))
    && (pcs[0] == D.Idle
        || (DI.IsStopping(pcs[0]) && InCloseOf(l, Core(StopDispatcher)))
        || ((pcs[0] == D.JoinWaiting || pcs[0] == D.Joining) && InCloseOf(l, Core(JoinDispatcher))))
  }

  ghost predicate ControllerOk(s: State) { ControllerInv(s.d.pcs, s.life) }

  lemma {:induction false} StopPcs(d: D.State, t: D.Tid, a: D.StopAction, d': D.State)
    requires t < |d.pcs| && D.StopStep(d, t, a, d')
    ensures d'.pcs == d.pcs[t := d'.pcs[t]] && (d'.pcs[t] == D.Idle || DI.IsStopping(d'.pcs[t]))
  {}

  lemma {:induction false} JoinPcs(d: D.State, t: D.Tid, a: D.JoinAction, d': D.State)
    requires t < |d.pcs| && D.JoinStep(d, t, a, d')
    ensures d'.pcs == d.pcs[t := d'.pcs[t]]
    ensures d'.pcs[t] == D.Idle || d'.pcs[t] == D.JoinWaiting || d'.pcs[t] == D.Joining
  {}

  lemma {:induction false} OtherPcs(d: D.State, a: D.Action, d': D.State)
    requires D.Step(d, a, d') && !a.Submit? && !a.Stop? && !a.Join?
    ensures d'.pcs == d.pcs
  {}

  lemma {:induction false} ControlKeeps(s: State, a: D.Action, d': D.State)
    requires ControllerOk(s) && Permitted(s, a) && D.Step(s.d, a, d')
    ensures ControllerInv(d'.pcs, s.life)
  {
    match a
    case Submit(_, _) =>
    case Stop(t, stop) => StopPcs(s.d, t, stop, d');
    case Join(t, join) => JoinPcs(s.d, t, join, d');
    case _ => OtherPcs(s.d, a, d');
  }

  lemma {:induction false} LifeKeepsController(s: State, a: LifeAction, s': State)
    requires ControllerOk(s) && LifeStep(s, a, s')
    ensures ControllerOk(s')
  {
    if s'.d != s.d {
      OtherPcs(s.d, D.Start(0), s'.d);
    }
    if a.CloseNext? {
      assert s.d.pcs[0] == D.Idle;
    }
  }

  lemma {:induction false} ControllerStep(s: State, a: Action, s': State)
    requires ControllerOk(s) && Step(s, a, s')
    ensures ControllerOk(s')
  {
    match a
    case Life(life) => LifeKeepsController(s, life, s');
    case Control(control) => ControlKeeps(s, control, s'.d);
    case Poll(poll) =>
      if s'.d != s.d {
        OtherPcs(s.d, ControlOf(s, a), s'.d);
      }
    case _ =>
  }

  lemma {:induction false} ControllerRun(states: seq<State>, actions: seq<Action>, i: nat)
    requires Run(states, actions) && i < |states|
    ensures forall k | 0 <= k <= i :: ControllerOk(states[k])
  {
    if i > 0 {
      ControllerRun(states, actions, i - 1);
      assert StepAt(states, actions, i - 1);
      ControllerStep(states[i - 1], actions[i - 1], states[i]);
    }
  }

  // ----- who can move -----

  lemma {:induction false} ControlMoves(s: State, op: Op, a: D.Action, d': D.State)
    requires Permitted(s, a) && D.Step(s.d, a, d') && Serves(s, op, Control(a))
    requires a.Submit? ==> !a.submit.Call?
    ensures CanServe(s, op)
  {
    assert Step(s, Control(a), s.(d := d'));
  }

  lemma {:induction false} HolderOfLockMoves(s: State, op: Op)
    requires ControllerOk(s) && DI.LockOk(s.d) && s.d.life.lock.Some?
    requires op == Core(StopDispatcher) || op == Core(JoinDispatcher)
    ensures CanServe(s, op)
  {
    DT.HolderMoves(s.d);
    var a, d' :| D.Step(s.d, a, d') && DT.HolderStep(s.d, a);
    assert DI.HoldsLock(s.d.pcs[a.t]);
    ControlMoves(s, op, a, d');
  }

  /** The dispatcher's worker can move unless it waits for a gate held by a poll. */
  lemma {:induction false} WorkerCanMove(s: State, op: Op)
    requires DI.WorkerOk(s.d) && DI.GatesOk(s.d) && s.d.worker != D.NotStarted && s.d.worker != D.Exited
    requires s.d.worker == D.Waiting ==> s.d.q.closed || s.d.q.items != []
    requires s.d.worker.AtGate? ==> forall x :: !ByPoll(s.d.gates, x)
    requires (op == Core(JoinDispatcher) && s.d.life.lock == None) || (op == Core(JoinScheduler) && PollerWaits(s))
    ensures CanServe(s, op)
  {
    var a, d' := DT.WorkerMoves(s.d);
    var w := s.d.worker;
    assert w.AtGate? && w.id < |s.d.subs.requests| ==> !ByPoll(s.d.gates, s.d.subs.requests[w.id].deviceId);
    ControlMoves(s, op, D.Work(a), d');
  }

  /** While the runtime is in request_stop, the stopping thread, which is that one, can go on. */
  lemma {:induction false} StopperCanMove(s: State)
    requires ControllerOk(s) && InCloseOf(s.life, Core(StopDispatcher)) && !MayReturn(s, Core(StopDispatcher))
    requires DI.StopOk(s.d) && DI.SweepOk(s.d) && DI.FlowOk(s.d)
    requires DI.AcceptOk(s.d) && DI.ActiveOk(s.d) && DI.LockOk(s.d)
    requires s.d.life.lock == None
    ensures CanServe(s, Core(StopDispatcher))
  {
    var d := s.d;
    if !d.life.stopping {
      assert !DI.IsStopping(d.pcs[0]);
      assert d.pcs[0] == D.Idle;
      var life := d.life.(lock := Some(0), stopping := true, stopper := Some(0));
      ControlMoves(s, Core(StopDispatcher), D.Stop(0, D.Mark), d.(pcs := d.pcs[0 := D.StopMarked], life := life));
    } else {
      assert d.life.stopper == Some(0) && !d.life.stopComplete && d.flow.swept;
      DT.StopperMoves(d);
      var a, d' :| D.Step(d, a, d') && a.Stop? && d.life.stopper == Some(a.t);
      ControlMoves(s, Core(StopDispatcher), a, d');
    }
  }

  /** While the runtime waits in join and the lifecycle lock is free, join can go on or the worker can. */
  lemma {:induction false} JoinerCanMove(s: State)
    requires ControllerOk(s) && InCloseOf(s.life, Core(JoinDispatcher)) && !MayReturn(s, Core(JoinDispatcher))
    requires DI.StopOk(s.d) && DI.JoinOk(s.d) && DI.FlowOk(s.d) && DI.WorkerOk(s.d) && DI.GatesOk(s.d)
    requires s.d.life.lock == None && s.d.life.stopComplete && s.d.life.started
    requires forall x :: !ByPoll(s.d.gates, x)
    ensures CanServe(s, Core(JoinDispatcher))
  {
    var d, op := s.d, Core(JoinDispatcher);
    if d.pcs[0] == D.Idle {
      ControlMoves(s, op, D.Action.Join(0, D.Wait), d.(pcs := d.pcs[0 := D.JoinWaiting]));
    } else if d.pcs[0] == D.JoinWaiting {
      if d.life.joined {
        ControlMoves(s, op, D.Action.Join(0, D.SeeJoined), d.(pcs := d.pcs[0 := D.Idle]));
      } else {
        var life := d.life.(joinInProgress := true, joiner := Some(0));
        ControlMoves(s, op, D.Action.Join(0, D.Claim), d.(pcs := d.pcs[0 := D.Joining], life := life));
      }
    } else if d.worker == D.Exited {
      var life := d.life.(joinInProgress := false, joined := true, joiner := None, joins := d.life.joins + 1);
      ControlMoves(s, op, D.Action.Join(0, D.JoinAction.Join), d.(pcs := d.pcs[0 := D.Idle], life := life));
    } else {
      WorkerCanMove(s, op);
    }
  }

  lemma {:induction false} PollMoves(s: State, a: PollAction, s': State)
    requires PollStep(s, a, s') && !a.Pick? && !a.Miss? && !a.GateThrows?
    ensures CanServe(s, Core(JoinScheduler))
  {
    assert Step(s, Action.Poll(a), s');
  }

  /** While the runtime waits for the scheduler thread, that thread can go on, or the dispatcher's worker that holds
      the gate it wants can. */
  lemma {:induction false} PollerCanMove(s: State)
    requires GatesOk(s) && DI.GatesOk(s.d) && DI.WorkerOk(s.d) && s.d.hasGates && s.polls.stopping
    requires s.polls.poller != Gone && s.polls.poller != Unborn
    ensures CanServe(s, Core(JoinScheduler))
  {
    var w := s.polls.poller;
    match w
    case Resting =>
      PollMoves(s, Leave, s.(polls := s.polls.(poller := Gone)));
    case AtGate(device) =>
      if device !in s.d.gates {
        var d' := s.d.(gates := s.d.gates[device := D.ByPoll]);
        assert D.Step(s.d, D.PollLock(device), d');
        PollMoves(s, Lock, s.(polls := s.polls.(poller := Polling(device)), d := d'));
      } else {
        assert !ByPoll(s.d.gates, device);
        WorkerCanMove(s, Core(JoinScheduler));
      }
    case Polling(device) =>
      PollMoves(s, PollThrows, s.(polls := s.polls.(poller := Unlocking(device), stats := CountThrow(s.polls.stats))));
    case Storing(device, batch) =>
      var stats := CountPoll(s.polls.stats, P.Refuses(s.data));
      PollMoves(s, Store, s.(polls := s.polls.(poller := Unlocking(device), stats := stats),
                             data := Stored(s.data, batch)));
    case Unlocking(device) =>
      assert ByPoll(s.d.gates, device);
      var d' := s.d.(gates := s.d.gates - {device});
      assert D.Step(s.d, D.PollUnlock(device), d');
      PollMoves(s, Unlock, s.(polls := s.polls.(poller := Resting), d := d'));
  }

  ghost function Stored(data: P.State, batch: P.Batch): (r: P.State)
    ensures P.Step(data, P.Store(batch), r)
  {
    var (raw, answer) := F.Push(data.raw, batch);
    data.(raw := raw, pushed := if answer == F.Pushed then data.pushed + [batch] else data.pushed)
  }

  lemma {:induction false} DataMoves(s: State, a: P.Action, data: P.State)
    requires !a.Begin? && !a.Shut? && !a.Store? && P.Step(s.data, a, data)
    ensures CanServe(s, Core(JoinProcessing))
  {
    assert Step(s, Data(a), s.(data := data));
  }

  /** While the runtime waits for the processing worker, that worker can go on. */
  lemma {:induction false} ProcessorCanMove(s: State)
    requires P.OffersOk(s.data) && s.data.raw.closed && s.data.worker != P.NotStarted && s.data.worker != P.Exited
    ensures CanServe(s, Core(JoinProcessing))
  {
    var x := s.data;
    match x.worker
    case Waiting =>
      if x.raw.items == [] {
        DataMoves(s, P.Exit, x.(worker := P.Exited));
      } else {
        DataMoves(s, P.Take, x.(raw := F.Pop(x.raw), worker := P.Handling(x.raw.items[0])));
      }
    case Handling(batch) =>
      DataMoves(s, P.Process(""),
                x.(worker := P.Publishing("", 0), deliveries := x.deliveries + [P.Delivery(batch, "")],
                                     counters := x.counters.(delivered := x.counters.delivered + 1)));
    case Publishing(event, next) =>
      if next < x.publishers {
        DataMoves(s, P.Attempt, x.(worker := P.Offering(event, next), offers := x.offers + [P.Offer(next, event)],
                                   counters := x.counters.(attempts := x.counters.attempts + 1)));
      } else {
        DataMoves(s, P.Finish, x.(worker := P.Waiting));
      }
    case Offering(event, next) =>
      DataMoves(s, P.Answer(P.Raised), x.(worker := P.Publishing(event, next + 1), verdicts := x.verdicts + [P.Raised],
                                          counters := P.Count(x.counters, P.Raised)));
  }

  lemma {:induction false} ShutdownCallReturns(s: State)
    requires s.life.phase.Closing? && s.life.phase.j < |s.life.phase.script|
    requires MayReturn(s, s.life.phase.script[s.life.phase.j])
    ensures CanMove(s)
  {
    var op := s.life.phase.script[s.life.phase.j];
    var life := s.life.(phase := s.life.phase.(j := s.life.phase.j + 1), log := s.life.log + [op]);
    var polls := if op == Core(StopScheduler) then s.polls.(stopping := true) else s.polls;
    var data := if op == Core(CloseRawQueue) then s.data.(raw := F.Close(s.data.raw)) else s.data;
    assert Step(s, Life(LifeAction.CloseNext), s.(life := life, polls := polls, data := data));
  }

  lemma {:induction false} ShutdownFinishes(s: State)
    requires s.life.phase.Closing? && s.life.phase.j == |s.life.phase.script|
    ensures CanMove(s)
  {
    var life := s.life.(phase := Over(s.life.phase.cause, s.life.phase.script), callers := Released(s.life.callers));
    assert Step(s, Life(LifeAction.Finish), s.(life := life));
  }

  // ----- each call of a shutdown -----

  lemma {:induction false} OrderAt(s: State)
    requires ScriptOk(s) && PhaseInv(s.up, s.life.phase) && s.life.phase.Closing?
    requires s.life.phase.j < |s.life.phase.script|
    ensures Reached(s.life.phase, s.life.phase.j)
    ensures var p, j := PlanOf(s.shape, s.life.phase.cause), s.life.phase.j;
            var op := s.life.phase.script[j];
            && j < |DownScript(p)|
            && (op == Core(JoinScheduler) ==> Follows(p, j, StopScheduler))
            && (op == Core(JoinDispatcher)
                ==> p.dispatcher && Follows(p, j, StopDispatcher) && (p.scheduler ==> Follows(p, j, JoinScheduler)))
            && (op == Core(JoinProcessing) ==> p.processing && Follows(p, j, CloseRawQueue))
  {
    ShutdownOrder(PlanOf(s.shape, s.life.phase.cause), s.life.phase.j);
  }

  lemma {:induction false} JoinSchedulerMoves(s: State)
    requires Inv(s) && DS.Reachable(s.d) && s.d.hasGates
    requires InCloseOf(s.life, Core(JoinScheduler)) && !MayReturn(s, Core(JoinScheduler))
    ensures CanServe(s, Core(JoinScheduler))
  {
    DS.ReachableInv(s.d);
    OrderAt(s);
    Relied(s, s.life.phase.j, StopScheduler);
    PollerCanMove(s);
  }

  lemma {:induction false} JoinDispatcherRelies(s: State)
    requires Inv(s) && InCloseOf(s.life, Core(JoinDispatcher))
    ensures s.d.life.stopComplete && s.d.life.started && forall x :: !ByPoll(s.d.gates, x)
  {
    OrderAt(s);
    PlanMatches(s.shape, s.life.phase);
    Relied(s, s.life.phase.j, StopDispatcher);
    if PlanOf(s.shape, s.life.phase.cause).scheduler {
      Relied(s, s.life.phase.j, JoinScheduler);
    }
    assert forall x :: !HoldsGate(s.polls.poller, x);
    assert forall x :: ByPoll(s.d.gates, x) <==> HoldsGate(s.polls.poller, x);
  }

  lemma {:induction false} JoinProcessingRelies(s: State)
    requires Inv(s) && InCloseOf(s.life, Core(JoinProcessing))
    ensures s.data.raw.closed && s.data.worker != P.NotStarted
  {
    OrderAt(s);
    PlanMatches(s.shape, s.life.phase);
    Relied(s, s.life.phase.j, CloseRawQueue);
  }

  lemma {:induction false} JoinDispatcherMoves(s: State)
    requires Inv(s) && ControllerOk(s) && DS.Reachable(s.d) && s.d.life.lock == None
    requires InCloseOf(s.life, Core(JoinDispatcher)) && !MayReturn(s, Core(JoinDispatcher))
    ensures CanServe(s, Core(JoinDispatcher))
  {
    JoinDispatcherRelies(s);
    DS.ReachableInv(s.d);
    JoinerCanMove(s);
  }

  lemma {:induction false} StopDispatcherMoves(s: State)
    requires ControllerOk(s) && DS.Reachable(s.d)
    requires InCloseOf(s.life, Core(StopDispatcher)) && !MayReturn(s, Core(StopDispatcher))
    ensures CanServe(s, Core(StopDispatcher))
  {
    DS.ReachableInv(s.d);
    if s.d.life.lock.Some? {
      HolderOfLockMoves(s, Core(StopDispatcher));
    } else {
      StopperCanMove(s);
    }
  }

  lemma {:induction false} LockedMoves(s: State)
    requires ControllerOk(s) && DS.Reachable(s.d) && s.d.life.lock.Some?
    ensures CanServe(s, Core(JoinDispatcher))
  {
    DS.ReachableInv(s.d);
    HolderOfLockMoves(s, Core(JoinDispatcher));
  }

  lemma {:induction false} JoinServed(s: State)
    requires Inv(s) && ControllerOk(s) && DS.Reachable(s.d)
    requires InCloseOf(s.life, Core(JoinDispatcher)) && !MayReturn(s, Core(JoinDispatcher))
    ensures CanServe(s, Core(JoinDispatcher))
  {
    if s.d.life.lock.Some? {
      LockedMoves(s);
    } else {
      JoinDispatcherMoves(s);
    }
  }

  lemma {:induction false} JoinProcessingMoves(s: State)
    requires Inv(s) && P.Inv(s.data)
    requires InCloseOf(s.life, Core(JoinProcessing)) && !MayReturn(s, Core(JoinProcessing))
    ensures CanServe(s, Core(JoinProcessing))
  {
    JoinProcessingRelies(s);
    ProcessorCanMove(s);
  }

  /** A call that has to wait. */
  lemma {:induction false} WaitingMoves(s: State, op: Op)
    requires Inv(s) && ControllerOk(s) && DS.Reachable(s.d) && P.Inv(s.data) && s.d.hasGates
    requires InCloseOf(s.life, op) && !MayReturn(s, op)
    ensures CanServe(s, op)
  {
    match op
    case Core(JoinScheduler) => JoinSchedulerMoves(s);
    case Core(JoinProcessing) => JoinProcessingMoves(s);
    case Core(StopDispatcher) => StopDispatcherMoves(s);
    case Core(JoinDispatcher) => JoinServed(s);
    case _ =>
  }

  /** In every state of every run in which the runtime is being shut down, by stop() or by a rollback, its current
      call can return, or the thread that call waits for, or the one holding what that thread waits for, can take a
      step: no interleaving deadlocks the shutdown. */
  lemma {:induction false} ShutdownNeverStuck(states: seq<State>, actions: seq<Action>, i: nat)
    requires Run(states, actions) && i < |states| && states[i].life.phase.Closing?
    ensures CanMove(states[i])
  {
    RunInv(states, actions, i);
    var l := states[i].life;
    if l.phase.j == |l.phase.script| {
      ShutdownFinishes(states[i]);
    } else if MayReturn(states[i], l.phase.script[l.phase.j]) {
      ShutdownCallReturns(states[i]);
    } else {
      ControllerRun(states, actions, i);
      RunHasGates(states, actions, i);
      DataInv(states, actions, i);
      var ds, das := DispatcherRun(states, actions, i);
      assert DS.LeadsTo(ds, das, states[i].d);
      WaitingMoves(states[i], l.phase.script[l.phase.j]);
    }
  }
}
