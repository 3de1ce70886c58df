/** Why the periodic source's pending counter is right: it rests on the dispatcher completing every accepted
    operation exactly once and refused ones never. */
module PeriodicSourceProof {
  import opened Options
  import opened ControlTypes
  import opened PeriodicSource
  import L = Lifecycle
  import G = Gateway
  import GI = GatewayInvariant
  import GT = GatewayTheorems
  import D = Dispatcher
  import DI = DispatcherInvariant
  import DS = DispatcherSteps
  import DT = DispatcherTheorems
  import DA = DispatcherAnswers

  ghost predicate Done(d: D.State, id: D.OpId) {
    DT.Completions(d, id) > 0
  }

  ghost predicate Refused(outcomes: map<D.OpId, D.Outcome>, id: D.OpId) {
    id in outcomes && outcomes[id] != D.Returned(Accepted)
  }

  // ----- what the dispatcher's steps do to one operation -----

  lemma {:induction false} WorkerCompletes(d: D.State, a: D.WorkerAction, d': D.State, id: D.OpId)
    requires D.WorkerStep(d, a, d') && id < |d.subs.requests| && d.subs.requests[id].hasCompletion
    ensures d'.worker == D.InCallback(id) && d.worker != d'.worker
        ==> DT.Completions(d', id) == DT.Completions(d, id) + 1
    ensures DT.Completions(d', id) != DT.Completions(d, id) ==> d'.worker == D.InCallback(id) && !d.worker.InCallback?
    ensures d.worker.InCallback? && d'.worker != d.worker ==> a == D.CallbackReturn
    ensures a == D.CallbackReturn ==> DT.Completions(d', id) == DT.Completions(d, id) && !d'.worker.InCallback?
  {
    if a.Complete? {
      assert DI.Ids(d'.done) == DI.Ids(d.done) + [d.worker.done.id];
    }
  }

  lemma {:induction false} StopperCompletes(d: D.State, t: D.Tid, a: D.StopAction, d': D.State, id: D.OpId)
    requires DI.StopOk(d) && DI.SweepOk(d)
    requires t < |d.pcs| && D.StopStep(d, t, a, d') && id < |d.subs.requests| && d.subs.requests[id].hasCompletion
    ensures Cancelling(d') == Some(id) && Cancelling(d) != Some(id)
        ==> DT.Completions(d', id) == DT.Completions(d, id) + 1
    ensures DT.Completions(d', id) != DT.Completions(d, id) ==> Cancelling(d') == Some(id) && Cancelling(d) == None
    ensures Cancelling(d).Some? && Cancelling(d') != Cancelling(d) ==> a == D.CancelReturn && Cancelling(d') == None
    ensures a == D.CancelReturn ==> Cancelling(d') == None
  {
    if a.CancelOne? {
      assert DI.Ids(d'.done) == DI.Ids(d.done) + [d.flow.cancelled[d.pcs[t].next]];
    }
  }

  lemma {:induction false} WorkerLeavesStopper(d: D.State, a: D.WorkerAction, d': D.State)
    requires D.WorkerStep(d, a, d')
    ensures Cancelling(d') == Cancelling(d)
  {}

  lemma {:induction false} StopperLeavesWorker(d: D.State, t: D.Tid, a: D.StopAction, d': D.State)
    requires t < |d.pcs| && D.StopStep(d, t, a, d')
    ensures d'.worker == d.worker
  {}

  lemma {:induction false} SubmitLeavesCallbacks(d: D.State, t: D.Tid, a: D.SubmitAction, d': D.State)
    requires t < |d.pcs| && D.SubmitStep(d, t, a, d')
    ensures d'.worker == d.worker && d'.done == d.done && Cancelling(d') == Cancelling(d)
  {}

  lemma {:induction false} JoinLeavesCallbacks(d: D.State, t: D.Tid, a: D.JoinAction, d': D.State)
    requires DI.StopOk(d) && t < |d.pcs| && D.JoinStep(d, t, a, d')
    ensures d'.worker == d.worker && d'.done == d.done && Cancelling(d') == Cancelling(d)
  {}

  lemma {:induction false} OthersLeaveCallbacks(d: D.State, c: D.Action, d': D.State)
    requires DI.FlowOk(d) && DI.StopOk(d) && D.Step(d, c, d') && !c.Work? && !c.Stop?
    ensures (d'.worker == d.worker || (!d.worker.InCallback? && !d'.worker.InCallback?))
    ensures d'.done == d.done && Cancelling(d') == Cancelling(d)
  {
    if c.Submit? {
      SubmitLeavesCallbacks(d, c.t, c.submit, d');
    } else if c.Join? {
      JoinLeavesCallbacks(d, c.t, c.join, d');
    }
  }

  /** How one step changes the callbacks of one operation: a callback begins exactly when the operation
      completes for the first time, and ends only by returning. */
  ghost predicate CallbackFacts(d: D.State, c: D.Action, d': D.State, id: D.OpId) {
    && (d'.worker == D.InCallback(id) && d.worker != d'.worker ==> !Done(d, id) && Done(d', id))
    && (Cancelling(d') == Some(id) && Cancelling(d) != Some(id) ==> !Done(d, id) && Done(d', id))
    && (Done(d', id) && !Done(d, id) ==> d'.worker == D.InCallback(id) || Cancelling(d') == Some(id))
    && (Done(d, id) ==> Done(d', id))
    && (d.worker.InCallback? && d'.worker != d.worker ==> c == D.Work(D.CallbackReturn) && !d'.worker.InCallback?)
    && (Cancelling(d).Some? && Cancelling(d') != Cancelling(d)
        ==> c.Stop? && c.stop == D.CancelReturn && Cancelling(d') == None)
    && (c == D.Work(D.CallbackReturn) ==> !d'.worker.InCallback?)
    && (c.Stop? && c.stop == D.CancelReturn ==> Cancelling(d') == None)
  }

  lemma {:induction false} CallbacksChange(d: D.State, c: D.Action, d': D.State, id: D.OpId)
    requires DI.FlowOk(d) && DI.StopOk(d) && DI.SweepOk(d) && D.Step(d, c, d')
    requires id < |d.subs.requests| && d.subs.requests[id].hasCompletion
    requires DT.Completions(d', id) <= 1
    ensures CallbackFacts(d, c, d', id)
  {
    match c
    case Work(a) =>
      WorkerCompletes(d, a, d', id);
      WorkerLeavesStopper(d, a, d');
    case Stop(t, a) =>
      StopperCompletes(d, t, a, d', id);
      StopperLeavesWorker(d, t, a, d');
    case _ =>
      OthersLeaveCallbacks(d, c, d');
  }

  // ----- the invariant -----

  /** What is known of one submission of the source. */
  ghost predicate IdInv(d: D.State, src: Source, id: D.OpId) {
    && id < |d.subs.requests| && d.subs.requests[id].hasCompletion
    && (id in d.subs.active ==> src.pc == InSubmit(id))
    && (id in d.subs.active || id in d.subs.outcomes)
    && (Done(d, id) ==> id in d.subs.outcomes && !Refused(d.subs.outcomes, id))
    && (id in src.settled ==> Done(d, id) || (Refused(d.subs.outcomes, id) && src.pc != InSubmit(id)))
    && (d.worker == D.InCallback(id) ==> (src.workerRan <==> id in src.settled))
    && (Cancelling(d) == Some(id) ==> (src.stopperRan <==> id in src.settled))
    && (id !in src.settled && Done(d, id) ==> d.worker == D.InCallback(id) || Cancelling(d) == Some(id))
    && (id !in src.settled && Refused(d.subs.outcomes, id) ==> src.pc == InSubmit(id) || IsDeclined(src.pc, id))
    && (IsDeclined(src.pc, id) ==> id !in src.settled && Refused(d.subs.outcomes, id) && id !in d.subs.active)
  }

  ghost predicate IsDeclined(pc: Pc, id: D.OpId) {
    pc.Declined? && pc.id == id
  }

  /** Counted but not sent yet. */
  ghost function Unsent(pc: Pc): int {
    if pc == Prepared || pc == Admitted || pc == Dropping then 1 else 0
  }

  ghost predicate CountInv(src: Source) {
    && src.settled <= src.sent
    && src.pending == |src.sent| - |src.settled| + Unsent(src.pc)
    && (src.pc.InSubmit? || src.pc.Declined? ==> src.pc.id in src.sent)
  }

  ghost predicate FlagInv(d: D.State, src: Source) {
    && (src.workerRan ==> WorkerCallback(d, src))
    && (src.stopperRan ==> StopperCallback(d, src))
  }

  ghost predicate Inv(d: D.State, src: Source) {
    CountInv(src) && FlagInv(d, src) && forall id | id in src.sent :: IdInv(d, src, id)
  }

  /** What the dispatcher's invariant provides here. */
  ghost predicate Reliable(d: D.State) {
    && DI.ThreadsOk(d) && DI.ActiveOk(d) && DI.FlowOk(d) && DI.StopOk(d) && DI.SweepOk(d) && DI.DoneOk(d)
        && DI.AcceptOk(d)
  }

  // ----- steps of the dispatcher -----

  /** The flags after a step of the dispatcher. */
  ghost function Flags(src: Source, c: D.Action): Source {
    src.(workerRan := src.workerRan && c != D.Work(D.CallbackReturn),
         stopperRan := src.stopperRan && !(c.Stop? && c.stop == D.CancelReturn))
  }

  /** A callback of ours returns only after it has subtracted. */
  ghost predicate Patient(d: D.State, src: Source, c: D.Action) {
    && (c == D.Work(D.CallbackReturn) && WorkerCallback(d, src) ==> src.workerRan)
    && (c.Stop? && c.stop == D.CancelReturn && StopperCallback(d, src) ==> src.stopperRan)
  }

  /** What a step of the dispatcher means for one submission. */
  ghost predicate IdMoves(d: D.State, c: D.Action, d': D.State, id: D.OpId)
    requires id < |d.subs.requests|
  {
    && CallbackFacts(d, c, d', id)
    && (id in d.subs.outcomes ==> id in d'.subs.outcomes && d'.subs.outcomes[id] == d.subs.outcomes[id])
    && (id in d'.subs.active ==> id in d.subs.active)
    && id < |d'.subs.requests| && d'.subs.requests[id] == d.subs.requests[id]
    && (id in d'.subs.active || id in d'.subs.outcomes)
    && (Done(d', id) ==> id in d'.subs.outcomes && !Refused(d'.subs.outcomes, id))
  }

  lemma {:induction false} IdMovesHolds(d: D.State, c: D.Action, d': D.State, id: D.OpId)
    requires DS.Reachable(d) && DS.Reachable(d') && D.Step(d, c, d')
    requires id < |d.subs.requests| && d.subs.requests[id].hasCompletion
    ensures IdMoves(d, c, d', id)
  {
    DS.ReachableInv(d);
    DS.ReachableInv(d');
    DT.OnceInState(d', id);
    DA.RecordStays(d, c, d', id);
    CallbacksChange(d, c, d', id);
  }

  lemma {:induction false} FlagsKept(d: D.State, c: D.Action, d': D.State, src: Source, id: D.OpId)
    requires FlagInv(d, src) && CallbackFacts(d, c, d', id)
    ensures FlagInv(d', Flags(src, c))
  {}

  lemma {:induction false} DispatcherKeeps(d: D.State, c: D.Action, d': D.State, src: Source)
    requires Inv(d, src) && DS.Reachable(d) && DS.Reachable(d') && D.Step(d, c, d') && Patient(d, src, c)
    ensures Inv(d', Flags(src, c))
  {
    forall id | id in src.sent
      ensures IdInv(d', Flags(src, c), id) && CallbackFacts(d, c, d', id)
    {
      IdMovesHolds(d, c, d', id);
    }
    if src.workerRan {
      FlagsKept(d, c, d', src, d.worker.id);
    } else if src.stopperRan {
      FlagsKept(d, c, d', src, Cancelling(d).value);
    }
  }

  // ----- steps of the source -----

  /** Steps that change neither what was sent nor the dispatcher. */
  lemma {:induction false} LocalKeeps(d: D.State, src: Source, src': Source)
    requires Inv(d, src) && !src.pc.InSubmit? && !src.pc.Declined? && !src'.pc.InSubmit? && !src'.pc.Declined?
    requires src' == src.(pc := src'.pc, stopRequested := src'.stopRequested,
                          pending := src.pending + Unsent(src'.pc) - Unsent(src.pc))
    ensures Inv(d, src')
  {
    forall id | id in src.sent
      ensures IdInv(d, src', id)
    {
      assert IdInv(d, src, id);
    }
  }

  lemma {:induction false} ReturnKeeps(d: D.State, src: Source, src': Source)
    requires Inv(d, src) && src.pc.InSubmit? && src.pc.id !in d.subs.active && src.pc.id in d.subs.outcomes
    requires src'.pc == Looping || IsDeclined(src'.pc, src.pc.id)
    requires src'.pc.Declined? <==> Refused(d.subs.outcomes, src.pc.id)
    requires src' == src.(pc := src'.pc)
    ensures Inv(d, src')
  {
    forall id | id in src.sent
      ensures IdInv(d, src', id)
    {
      assert IdInv(d, src, id);
    }
  }

  /** One subtraction, which must be for a submission not subtracted yet. */
  lemma {:induction false} SettleCounts(src: Source, id: D.OpId)
    requires CountInv(src) && id in src.sent && id !in src.settled
    ensures CountInv(Settle(src, id)) && 0 < src.pending
  {
    Subset(src.settled + {id}, src.sent);
  }

  lemma {:induction false} Subset<T>(a: set<T>, b: set<T>)
    requires a <= b
    ensures |a| <= |b| && (|a| == |b| <==> a == b)
  {
    assert b == a + (b - a);
    assert |b| == |a| + |b - a|;
  }

  /** A refused request has no callback running. */
  lemma {:induction false} DeclinedIsQuiet(d: D.State, src: Source)
    requires Inv(d, src) && Reliable(d) && src.pc.Declined?
    ensures d.worker != D.InCallback(src.pc.id) && Cancelling(d) != Some(src.pc.id)
  {
    var me := src.pc.id;
    assert IdInv(d, src, me);
    if d.worker == D.InCallback(me) || Cancelling(d) == Some(me) {
      CallbackIsDone(d, me);
    }
  }

  lemma {:induction false} DeclineKeeps(d: D.State, src: Source, pc: Pc)
    requires Inv(d, src) && Reliable(d) && src.pc.Declined? && (pc == Looping || pc == Exited)
    ensures Inv(d, Settle(src, src.pc.id).(pc := pc)) && 0 < src.pending
  {
    DeclinedIsQuiet(d, src);
    assert IdInv(d, src, src.pc.id);
    SettleCounts(src, src.pc.id);
    forall id | id in src.sent
      ensures IdInv(d, Settle(src, src.pc.id).(pc := pc), id)
    {
      assert IdInv(d, src, id);
    }
  }

  /** Two callbacks never run for the same operation. */
  lemma {:induction false} OneCallback(d: D.State, id: D.OpId)
    requires DI.FlowOk(d) && DI.AcceptOk(d) && DI.SweepOk(d) && DI.StopOk(d)
    requires d.worker == D.InCallback(id)
    ensures Cancelling(d) != Some(id)
  {
    var f := d.flow;
    if Cancelling(d).Some? {
      var k := d.pcs[d.life.stopper.value].next;
      assert f.accepted[|f.taken| - 1] == id && f.accepted[|f.taken| + k] == f.cancelled[k];
    }
  }

  lemma {:induction false} WorkerCallbackKeeps(d: D.State, src: Source)
    requires Inv(d, src) && Reliable(d) && WorkerCallback(d, src) && !src.workerRan
    ensures Inv(d, Settle(src, d.worker.id).(workerRan := true)) && 0 < src.pending
  {
    var me := d.worker.id;
    assert IdInv(d, src, me);
    CallbackIsDone(d, me);
    OneCallback(d, me);
    SettleCounts(src, me);
    forall id | id in src.sent
      ensures IdInv(d, Settle(src, me).(workerRan := true), id)
    {
      assert IdInv(d, src, id);
    }
  }

  lemma {:induction false} StopperCallbackKeeps(d: D.State, src: Source)
    requires Inv(d, src) && Reliable(d) && StopperCallback(d, src) && !src.stopperRan
    ensures Inv(d, Settle(src, Cancelling(d).value).(stopperRan := true)) && 0 < src.pending
  {
    var me := Cancelling(d).value;
    assert IdInv(d, src, me);
    CallbackIsDone(d, me);
    if d.worker == D.InCallback(me) {
      OneCallback(d, me);
    }
    SettleCounts(src, me);
    forall id | id in src.sent
      ensures IdInv(d, Settle(src, me).(stopperRan := true), id)
    {
      assert IdInv(d, src, id);
    }
  }

  /** An operation whose callback runs has completed. */
  lemma {:induction false} CallbackIsDone(d: D.State, id: D.OpId)
    requires DI.FlowOk(d) && DI.DoneOk(d) && DI.StopOk(d) && DI.SweepOk(d)
    requires d.worker == D.InCallback(id) || Cancelling(d) == Some(id)
    ensures Done(d, id)
  {
    var f := d.flow;
    assert DT.Completions(d, id)
        == DI.Occurs(f.workerDone, id) + DI.Occurs(f.cancelled[..f.cancelCounted], id)
            + DI.Occurs(DI.InCall(d.worker), id);
    if Cancelling(d) == Some(id) {
      var k := d.pcs[d.life.stopper.value].next;
      assert f.cancelled[..f.cancelCounted][k] == id;
    }
  }

  /** A new submission enters the record. */
  lemma {:induction false} FreshId(d: D.State, t: D.Tid, request: Request, d': D.State)
    requires Reliable(d') && D.Step(d, D.Submit(t, D.Call(request)), d') && DI.ActiveOk(d)
    ensures var id := |d.subs.requests|;
            && id < |d'.subs.requests| && d'.subs.requests[id] == request
            && id in d'.subs.active && id !in d'.subs.outcomes
            && !Done(d', id) && d'.worker != D.InCallback(id) && Cancelling(d') != Some(id)
  {
    var id := |d.subs.requests|;
    DT.OnceInState(d', id);
    if d'.worker == D.InCallback(id) || Cancelling(d') == Some(id) {
      CallbackIsDone(d', id);
    }
  }

  lemma {:induction false} AllOlder(d: D.State, src: Source)
    requires Inv(d, src)
    ensures |d.subs.requests| !in src.sent
  {
    forall id | id in src.sent
      ensures id < |d.subs.requests|
    {
      assert IdInv(d, src, id);
    }
  }

  lemma {:induction false} CallKeepsAll(d: D.State, src: Source, me: D.OpId)
    requires Inv(d, src) && src.pc == Admitted && me !in src.sent
    requires IdInv(d, src.(pc := InSubmit(me), sent := src.sent + {me}), me)
    ensures Inv(d, src.(pc := InSubmit(me), sent := src.sent + {me}))
  {
    forall id | id in src.sent
      ensures IdInv(d, src.(pc := InSubmit(me), sent := src.sent + {me}), id)
    {
      assert IdInv(d, src, id);
    }
  }

  lemma {:induction false} CallKeeps(d: D.State, t: D.Tid, request: Request, d': D.State, src: Source)
    requires Inv(d, src) && DS.Reachable(d) && DS.Reachable(d') && D.Step(d, D.Submit(t, D.Call(request)), d')
    requires src.pc == Admitted && request.hasCompletion
    ensures var id := |d.subs.requests|;
            Inv(d', src.(pc := InSubmit(id), sent := src.sent + {id}))
  {
    AllOlder(d, src);
    DispatcherKeeps(d, D.Submit(t, D.Call(request)), d', src);
    DS.ReachableInv(d);
    DS.ReachableInv(d');
    FreshId(d, t, request, d');
    CallKeepsAll(d', src, |d.subs.requests|);
  }

  // ----- runs -----

  /** The gateway's share of a step. */
  ghost function GatewayAction(s: State, a: Action): G.Action {
    match a
    case Other(other) => other
    case Own(Call(request)) => G.Control(D.Submit(ME, D.Call(request)))
    case _ => G.Admit(ME)
  }

  lemma {:induction false} GatewayMoves(s: State, a: Action, s': State)
    requires Step(s, a, s')
    ensures s'.g == s.g || G.Step(s.g, GatewayAction(s, a), s'.g)
  {}

  /** Every run with the source contains a run of the gateway. */
  lemma {:induction false} GatewayRun(states: seq<State>, actions: seq<Action>, i: nat)
    returns (gs: seq<G.State>, gas: seq<G.Action>)
    requires Run(states, actions) && i < |states|
    ensures GI.LeadsTo(gs, gas, states[i].g)
  {
    if i == 0 {
      gs, gas := [states[0].g], [];
    } else {
      gs, gas := GatewayRun(states, actions, i - 1);
      assert StepAt(states, actions, i - 1);
      GatewayMoves(states[i - 1], actions[i - 1], states[i]);
      if states[i].g != states[i - 1].g {
        GI.Extended(gs, gas, GatewayAction(states[i - 1], actions[i - 1]), states[i].g);
        gs, gas := gs + [states[i].g], gas + [GatewayAction(states[i - 1], actions[i - 1])];
      }
    }
  }

  lemma {:induction false} ReachableAt(states: seq<State>, actions: seq<Action>, i: nat)
    requires Run(states, actions) && i < |states|
    ensures DS.Reachable(states[i].g.d)
  {
    var gs, gas := GatewayRun(states, actions, i);
    GI.DispatcherReachable(gs, gas, |gas|);
  }

  // ----- every step -----

  lemma {:induction false} OwnKeeps(s: State, a: SourceAction, s': State)
    requires Inv(s.g.d, s.src) && DS.Reachable(s.g.d) && DS.Reachable(s'.g.d) && SourceStep(s, a, s')
    ensures Inv(s'.g.d, s'.src)
  {
    if a.Call? {
      SubmitKeeps(s, a.request, s');
    } else if a.Return? {
      ReturnKeeps(s.g.d, s.src, s'.src);
    } else if a.Decline? {
      DS.ReachableInv(s.g.d);
      DeclineKeeps(s.g.d, s.src, s'.src.pc);
    } else if a.AskStop? {
      AskStopKeeps(s.g.d, s.src);
    } else {
      LocalMoves(s, a, s');
      LocalKeeps(s.g.d, s.src, s'.src);
    }
  }

  lemma {:induction false} SubmitKeeps(s: State, request: Request, s': State)
    requires Inv(s.g.d, s.src) && DS.Reachable(s.g.d) && DS.Reachable(s'.g.d) && SourceStep(s, Call(request), s')
    ensures Inv(s'.g.d, s'.src)
  {
    CallKeeps(s.g.d, ME, request, s'.g.d, s.src);
  }

  lemma {:induction false} LocalMoves(s: State, a: SourceAction, s': State)
    requires SourceStep(s, a, s') && !a.Call? && !a.Return? && !a.Decline? && !a.AskStop?
    ensures s'.g.d == s.g.d && !s.src.pc.InSubmit? && !s.src.pc.Declined? && !s'.src.pc.InSubmit?
    ensures !s'.src.pc.Declined?
    ensures s'.src == s.src.(pc := s'.src.pc, pending := s.src.pending + Unsent(s'.src.pc) - Unsent(s.src.pc))
  {}

  lemma {:induction false} AskStopKeeps(d: D.State, src: Source)
    requires Inv(d, src)
    ensures Inv(d, src.(stopRequested := true))
  {
    forall id | id in src.sent
      ensures IdInv(d, src.(stopRequested := true), id)
    {
      assert IdInv(d, src, id);
    }
  }

  lemma {:induction false} OtherKeeps(s: State, a: G.Action, s': State)
    requires Inv(s.g.d, s.src) && DS.Reachable(s.g.d) && DS.Reachable(s'.g.d) && Step(s, Other(a), s')
    ensures Inv(s'.g.d, s'.src)
  {
    if s'.g.d == s.g.d {
      StillKeeps(s, a, s');
    } else {
      var c := GI.ControlOf(s.g, a);
      MovesAs(s.g, a, s'.g);
      assert s'.src == Flags(s.src, c) && Patient(s.g.d, s.src, c);
      DispatcherKeeps(s.g.d, c, s'.g.d, s.src);
    }
  }

  lemma {:induction false} MovesAs(g: G.State, a: G.Action, g': G.State)
    requires G.Step(g, a, g') && g'.d != g.d
    ensures D.Step(g.d, GI.ControlOf(g, a), g'.d)
    ensures var c := GI.ControlOf(g, a);
            a.Control? <==> c.Submit? || c.Stop? || c.Join? || c.Work? || c.Tick?
    ensures a.Control? ==> GI.ControlOf(g, a) == a.control
  {}

  /** A returning callback is always a step of the dispatcher. */
  lemma {:induction false} StillKeeps(s: State, a: G.Action, s': State)
    requires Step(s, Other(a), s') && s'.g.d == s.g.d
    ensures s'.src == s.src
  {}

  lemma {:induction false} CallbackKeeps(s: State, a: Action, s': State)
    requires Inv(s.g.d, s.src) && DS.Reachable(s.g.d) && Step(s, a, s') && (a.CallbackOnWorker? || a.CallbackOnStopper?)
    ensures Inv(s'.g.d, s'.src)
  {
    DS.ReachableInv(s.g.d);
    if a.CallbackOnWorker? {
      WorkerCallbackKeeps(s.g.d, s.src);
    } else {
      StopperCallbackKeeps(s.g.d, s.src);
    }
  }

  lemma {:induction false} StepKeeps(s: State, a: Action, s': State)
    requires Inv(s.g.d, s.src) && DS.Reachable(s.g.d) && DS.Reachable(s'.g.d) && Step(s, a, s')
    ensures Inv(s'.g.d, s'.src)
  {
    match a
    case Own(own) => OwnKeeps(s, own, s');
    case Other(other) => OtherKeeps(s, other, s');
    case _ => CallbackKeeps(s, a, s');
  }

  lemma {:induction false} RunInv(states: seq<State>, actions: seq<Action>, i: nat)
    requires Run(states, actions) && i < |states|
    ensures Inv(states[i].g.d, states[i].src)
  {
    if i > 0 {
      RunInv(states, actions, i - 1);
      ReachableAt(states, actions, i - 1);
      ReachableAt(states, actions, i);
      assert StepAt(states, actions, i - 1);
      StepKeeps(states[i - 1], actions[i - 1], states[i]);
    }
  }

  // ----- the theorems -----

  /** The requests counted and neither completed nor refused: those sent and not subtracted, and the one about
      to be sent. */
  ghost function Open(src: Source): nat {
    |src.sent - src.settled| + Unsent(src.pc)
  }

  /** The subtraction for this request is due now: its callback is running, or submit is about to hand its refusal
      to the source's worker, or has done so. */
  ghost predicate BeingSettled(s: State, id: D.OpId) {
    || s.g.d.worker == D.InCallback(id) || Cancelling(s.g.d) == Some(id)
    || s.src.pc == InSubmit(id) || IsDeclined(s.src.pc, id)
  }

  /** `pending` is always the number of open requests, so it is never negative. A request is subtracted only after
      it has completed or was refused, and one that has completed or was refused is subtracted or about to be. */
  lemma {:induction false} PendingCountsOpen(states: seq<State>, actions: seq<Action>, i: nat)
    requires Run(states, actions) && i < |states|
    ensures states[i].src.pending == Open(states[i].src)
    ensures forall id | id in states[i].src.settled ::
              id in states[i].src.sent && (Done(states[i].g.d, id) || Refused(states[i].g.d.subs.outcomes, id))
    ensures forall id | id in states[i].src.sent && id !in states[i].src.settled ::
              Done(states[i].g.d, id) || Refused(states[i].g.d.subs.outcomes, id) ==> BeingSettled(states[i], id)
  {
    RunInv(states, actions, i);
    var src := states[i].src;
    assert src.sent == src.settled + (src.sent - src.settled);
    forall id | id in src.settled
      ensures id in src.sent && (Done(states[i].g.d, id) || Refused(states[i].g.d.subs.outcomes, id))
    {
      assert IdInv(states[i].g.d, src, id);
    }
    forall id | id in src.sent && id !in src.settled
      ensures Done(states[i].g.d, id) || Refused(states[i].g.d.subs.outcomes, id) ==> BeingSettled(states[i], id)
    {
      assert IdInv(states[i].g.d, src, id);
    }
  }

  /** A step that subtracts. */
  ghost predicate Subtracts(s: State, a: Action, s': State) {
    s'.src.pending < s.src.pending
  }

  /** No subtraction ever happens at zero. */
  lemma {:induction false} NeverUnderflows(states: seq<State>, actions: seq<Action>, i: nat)
    requires Run(states, actions) && i < |actions| && Subtracts(states[i], actions[i], states[i + 1])
    ensures states[i].src.pending == states[i + 1].src.pending + 1 && 0 <= states[i + 1].src.pending
  {
    PendingCountsOpen(states, actions, i + 1);
    assert StepAt(states, actions, i);
  }

  lemma {:induction false} AllSettled(d: D.State, src: Source, id: D.OpId)
    requires Inv(d, src) && DS.Inv(d) && (d.life.joined || !d.life.started)
    requires !src.pc.InSubmit? && !src.pc.Declined? && id in src.sent
    ensures id in src.settled
  {
    assert IdInv(d, src, id);
    GT.DispatcherDone(d);
    if !Refused(d.subs.outcomes, id) {
      AcceptedIsDone(d, id);
    }
    assert d.worker != D.InCallback(id);
    assert Cancelling(d).None?;
  }

  lemma {:induction false} AcceptedIsDone(d: D.State, id: D.OpId)
    requires DS.Inv(d) && (d.life.joined || !d.life.started)
    requires id in d.subs.outcomes && d.subs.outcomes[id] == D.Returned(Accepted)
    ensures Done(d, id)
  {
    assert DI.AcceptOk(d) && DI.FlowOk(d);
    assert id in d.flow.accepted;
    DT.JoinedIsQuiet(d);
  }

  /** Once the dispatcher has been joined, or if it was never started, and the source's worker has ended, nothing
      is pending. In particular, when the runtime calls this source's stop() the wait for pending to reach
      zero is over as soon as the worker has been joined: it cannot block shutdown. */
  lemma {:induction false} StopDoesNotBlock(states: seq<State>, actions: seq<Action>, i: nat, p: nat)
    requires Run(states, actions) && i < |states|
    requires GT.ProducersGone(states[i].g) || GT.StopBegun(states[i].g.life.phase, L.Source, p)
    requires states[i].src.pc == Exited || states[i].src.pc == NotStarted
    ensures states[i].src.pending == 0
  {
    var gs, gas := GatewayRun(states, actions, i);
    if GT.StopBegun(states[i].g.life.phase, L.Source, p) {
      GT.GoneInState(gs, gas, |gas|, L.Source, p);
    }
    ReachableAt(states, actions, i);
    DS.ReachableInv(states[i].g.d);
    RunInv(states, actions, i);
    NothingPending(states[i].g.d, states[i].src);
  }

  lemma {:induction false} NothingPending(d: D.State, src: Source)
    requires Inv(d, src) && DS.Inv(d) && (d.life.joined || !d.life.started)
    requires src.pc == Exited || src.pc == NotStarted
    ensures src.pending == 0
  {
    forall id | id in src.sent
      ensures id in src.settled
    {
      AllSettled(d, src, id);
    }
    assert src.sent == src.settled;
  }
}
