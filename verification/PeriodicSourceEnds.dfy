/** Why the periodic source's stop() returns: by then its worker has been asked to end, it has only a few steps left,
    it can always take the next one, and nothing is pending afterwards. */
module PeriodicSourceEnds {
  import opened Options
  import opened ControlTypes
  import opened PeriodicSource
  import opened PeriodicSourceProof
  import L = Lifecycle
  import G = Gateway
  import GI = GatewayInvariant
  import GT = GatewayTheorems
  import GP = GatewayProgress
  import D = Dispatcher
  import DI = DispatcherInvariant
  import DS = DispatcherSteps
  import DT = DispatcherTheorems
  import DA = DispatcherAnswers

  // ----- asked before it is stopped -----

  ghost function Request(p: nat): L.Op {
    L.Plugin(L.RequestStop, L.Source, p)
  }

  /** Once request_stop() has returned the worker has been asked. */
  ghost predicate AskedInv(phase: G.Phase, p: nat, src: Source) {
    Request(p) in GI.Past(phase) ==> Asked(src)
  }

  lemma {:induction false} PastGrows(g: G.State, a: G.Action, g': G.State, op: L.Op)
    requires G.Step(g, a, g') && GI.PhaseInv(g.up, g.life.phase) && op in GI.Past(g'.life.phase)
    ensures op in GI.Past(g.life.phase) || (a == G.Life(G.LifeAction.CloseNext) && G.InCloseOf(g.life, op))
  {
    if a == G.Life(G.LifeAction.CloseNext) {
      var script, j := g.life.phase.script, g.life.phase.j;
      assert script[..j + 1] == script[..j] + [script[j]];
    }
  }

  lemma {:induction false} AskedKept(s: State, a: Action, s': State)
    requires Step(s, a, s') && AskedInv(s.g.life.phase, s.p, s.src) && GI.PhaseInv(s.g.up, s.g.life.phase)
    ensures AskedInv(s'.g.life.phase, s'.p, s'.src) && s'.p == s.p
  {
    if Request(s.p) in GI.Past(s'.g.life.phase) {
      if a.Other? {
        PastGrows(s.g, a.other, s'.g, Request(s.p));
      } else {
        GatewayMoves(s, a, s');
        if s'.g != s.g {
          PastGrows(s.g, GatewayAction(s, a), s'.g, Request(s.p));
        }
        assert Request(s.p) in GI.Past(s.g.life.phase);
      }
    }
  }

  ghost predicate PhaseOk(g: G.State) {
    GI.PhaseInv(g.up, g.life.phase) && GI.ScriptInv(g.shape, g.up, g.life.phase)
  }

  lemma {:induction false} PhaseAt(states: seq<State>, actions: seq<Action>, i: nat)
    requires Run(states, actions) && i < |states|
    ensures PhaseOk(states[i].g)
  {
    var gs, gas := GatewayRun(states, actions, i);
    GI.RunInv(gs, gas, |gas|);
  }

  lemma {:induction false} AskedRun(states: seq<State>, actions: seq<Action>, i: nat)
    requires Run(states, actions) && i < |states|
    ensures AskedInv(states[i].g.life.phase, states[i].p, states[i].src)
  {
    if i > 0 {
      AskedRun(states, actions, i - 1);
      PhaseAt(states, actions, i - 1);
      assert StepAt(states, actions, i - 1);
      AskedKept(states[i - 1], actions[i - 1], states[i]);
    }
  }

  /** Every source is asked to stop before it is stopped. */
  lemma {:induction false} RequestFirst(plan: L.Plan, j: nat, p: nat)
    requires j < |L.DownScript(plan)| && L.DownScript(plan)[j] == L.Plugin(L.Stop, L.Source, p)
    ensures Request(p) in L.DownScript(plan)[..j]
  {
    var k := plan.sources - 1 - p;
    assert L.StopDevices(plan)[j - |L.Quiesce(plan)|] == L.Plugin(L.Stop, L.Source, p);
    assert L.Quiesce(plan)[k] == Request(p);
    assert L.DownScript(plan)[..j][k] == Request(p);
  }

  /** When the runtime calls this source's stop(), its worker has been asked to end, or never began. */
  lemma {:induction false} AskedBeforeStop(states: seq<State>, actions: seq<Action>, i: nat)
    requires Run(states, actions) && i < |states| && Inside(states[i], L.Stop)
    ensures Asked(states[i].src)
  {
    AskedRun(states, actions, i);
    PhaseAt(states, actions, i);
    var phase := states[i].g.life.phase;
    RequestFirst(G.PlanOf(states[i].g.shape, phase.cause), phase.j, states[i].p);
  }

  // ----- when the loop ends -----

  /** A submission after which the loop ends. */
  ghost predicate Final(o: D.Outcome) {
    o == D.Threw || o == D.Returned(Stopping)
  }

  /** A refused submission is the last one exactly when it was answered Stopping or threw. */
  ghost predicate LastOk(d: D.State, src: Source) {
    src.pc.Declined? ==> src.pc.id in d.subs.outcomes && (src.pc.last <==> Final(d.subs.outcomes[src.pc.id]))
  }

  lemma {:induction false} LastKept(s: State, a: Action, s': State)
    requires Step(s, a, s') && LastOk(s.g.d, s.src) && DS.Reachable(s.g.d)
    requires s.src.pc.Declined? ==> s.src.pc.id < |s.g.d.subs.requests|
    ensures LastOk(s'.g.d, s'.src)
  {
    if a.Other? && s.src.pc.Declined? && s'.g.d != s.g.d {
      DS.ReachableInv(s.g.d);
      MovesAs(s.g, a.other, s'.g);
      DA.RecordStays(s.g.d, GI.ControlOf(s.g, a.other), s'.g.d, s.src.pc.id);
    }
  }

  lemma {:induction false} LastAt(states: seq<State>, actions: seq<Action>, i: nat)
    requires Run(states, actions) && i < |states|
    ensures LastOk(states[i].g.d, states[i].src)
  {
    if i > 0 {
      LastAt(states, actions, i - 1);
      ReachableAt(states, actions, i - 1);
      RunInv(states, actions, i - 1);
      assert StepAt(states, actions, i - 1);
      var src := states[i - 1].src;
      assert src.pc.Declined? ==> IdInv(states[i - 1].g.d, src, src.pc.id);
      LastKept(states[i - 1], actions[i - 1], states[i]);
    }
  }

  /** After a refusal the worker goes on, unless the answer was Stopping or the submission threw: then it ends. */
  lemma DeclineDecides(states: seq<State>, actions: seq<Action>, i: nat)
    requires Run(states, actions) && i < |actions| && actions[i] == Own(Decline)
    ensures states[i].src.pc.Declined? && states[i].src.pc.id in states[i].g.d.subs.outcomes
    ensures var o := states[i].g.d.subs.outcomes[states[i].src.pc.id];
            states[i + 1].src.pc == if o == D.Threw || o == D.Returned(Stopping) then Exited else Looping
  {
    LastAt(states, actions, i);
    assert StepAt(states, actions, i);
  }

  /** A worker that has ended submits nothing any more. */
  lemma {:induction false} EndedForGood(states: seq<State>, actions: seq<Action>, i: nat, j: nat)
    requires Run(states, actions) && i <= j < |states| && states[i].src.pc == Exited
    ensures states[j].src.pc == Exited && states[j].src.sent == states[i].src.sent
    decreases j
  {
    if i < j {
      EndedForGood(states, actions, i, j - 1);
      assert StepAt(states, actions, j - 1);
    }
  }

  // ----- only a few steps left -----

  /** The steps of its own the worker can still take once it has been asked to end. */
  ghost function StepsLeft(pc: Pc): nat {
    match pc
    case NotStarted => 0
    case Exited => 0
    case Looping => 1
    case Dropping => 1
    case Declined(_, _) => 2
    case InSubmit(_) => 3
    case Admitted => 4
    case Prepared => 5
  }

  ghost predicate OwnStep(a: Action) {
    a.Own? && !a.own.AskStop?
  }

  lemma {:induction false} LeftFalls(s: State, a: Action, s': State)
    requires Step(s, a, s') && s.src.stopRequested && s.src.pc != NotStarted
    ensures s'.src.stopRequested && s'.src.pc != NotStarted
    ensures StepsLeft(s'.src.pc) <= StepsLeft(s.src.pc) - if OwnStep(a) then 1 else 0
  {}

  lemma {:induction false} AskedHasBegun(states: seq<State>, actions: seq<Action>, i: nat)
    requires Run(states, actions) && i < |states| && states[i].src.stopRequested
    ensures states[i].src.pc != NotStarted
  {
    if i > 0 {
      assert StepAt(states, actions, i - 1);
      if states[i - 1].src.stopRequested {
        AskedHasBegun(states, actions, i - 1);
        LeftFalls(states[i - 1], actions[i - 1], states[i]);
      }
    }
  }

  /** How many of actions[i..j] are the worker's own. */
  ghost function OwnSteps(actions: seq<Action>, i: nat, j: nat): nat
    requires i <= j <= |actions|
    decreases j
  {
    if i == j then 0 else OwnSteps(actions, i, j - 1) + if OwnStep(actions[j - 1]) then 1 else 0
  }

  lemma {:induction false} StepsPaid(states: seq<State>, actions: seq<Action>, i: nat, j: nat)
    requires Run(states, actions) && i <= j < |states| && states[i].src.stopRequested
    ensures states[j].src.stopRequested
    ensures OwnSteps(actions, i, j) <= StepsLeft(states[i].src.pc) - StepsLeft(states[j].src.pc)
    decreases j
  {
    if i < j {
      StepsPaid(states, actions, i, j - 1);
      AskedHasBegun(states, actions, j - 1);
      assert StepAt(states, actions, j - 1);
      LeftFalls(states[j - 1], actions[j - 1], states[j]);
    }
  }

  /** After it has been asked to end, the worker takes at most five more steps of its own. */
  lemma {:induction false} WorkerEndsSoon(states: seq<State>, actions: seq<Action>, i: nat, j: nat)
    requires Run(states, actions) && i <= j < |states| && states[i].src.stopRequested
    ensures OwnSteps(actions, i, j) <= StepsLeft(states[i].src.pc) <= 5
  {
    StepsPaid(states, actions, i, j);
  }

  // ----- and it can take them -----

  /** The worker as a caller of the dispatcher. */
  ghost predicate CallerInv(pcs: seq<D.Pc>, subs: D.Subs, admitted: set<nat>, pc: Pc) {
    && ME < |pcs|
    && (pcs[ME] == D.Idle || (DI.IsSubmitting(pcs[ME]) && pc == InSubmit(pcs[ME].id)))
    && (pc == Admitted ==> ME in admitted)
    && (pc.InSubmit? ==> pc.id < |subs.requests| && (pcs[ME] == D.Idle ==> pc.id !in subs.active))
  }

  ghost predicate CallerOk(s: State) {
    CallerInv(s.g.d.pcs, s.g.d.subs, s.g.admitted, s.src.pc)
  }

  lemma {:induction false} OthersKeepCaller(d: D.State, c: D.Action, d': D.State, admitted: set<nat>, pc: Pc)
    requires CallerInv(d.pcs, d.subs, admitted, pc) && D.Step(d, c, d') && !c.Submit?
    requires (c.Stop? || c.Join?) ==> c.t == 0
    ensures CallerInv(d'.pcs, d'.subs, admitted, pc)
  {
    DA.OnlySubmitRecords(d, c, d');
    if c.Stop? {
      GP.StopPcs(d, c.t, c.stop, d');
    } else if c.Join? {
      GP.JoinPcs(d, c.t, c.join, d');
    } else {
      GP.OtherPcs(d, c, d');
    }
  }

  lemma {:induction false} DispatcherKeepsCaller(d: D.State, c: D.Action, d': D.State, admitted: set<nat>, pc: Pc)
    requires CallerInv(d.pcs, d.subs, admitted, pc) && D.Step(d, c, d')
    requires (c.Stop? || c.Join?) ==> c.t == 0
    requires c.Submit? && c.t == ME ==> !c.submit.Call?
    ensures CallerInv(d'.pcs, d'.subs, admitted, pc)
  {
    if c.Submit? {
    } else {
      OthersKeepCaller(d, c, d', admitted, pc);
    }
  }

  lemma {:induction false} OtherKeepsCaller(s: State, a: G.Action, s': State)
    requires CallerOk(s) && Step(s, Other(a), s')
    ensures CallerOk(s')
  {
    if s'.g.d != s.g.d {
      var c := GI.ControlOf(s.g, a);
      MovesAs(s.g, a, s'.g);
      DispatcherKeepsCaller(s.g.d, c, s'.g.d, s.g.admitted, s.src.pc);
    }
  }

  lemma {:induction false} OwnKeepsCaller(s: State, a: SourceAction, s': State)
    requires CallerOk(s) && DI.ThreadsOk(s.g.d) && SourceStep(s, a, s')
    ensures CallerOk(s')
  {}

  lemma {:induction false} StepKeepsCaller(s: State, a: Action, s': State)
    requires CallerOk(s) && DS.Reachable(s.g.d) && Step(s, a, s')
    ensures CallerOk(s')
  {
    match a
    case Own(own) =>
      DS.ReachableInv(s.g.d);
      OwnKeepsCaller(s, own, s');
    case Other(other) => OtherKeepsCaller(s, other, s');
    case _ =>
  }

  lemma {:induction false} CallerAt(states: seq<State>, actions: seq<Action>, i: nat)
    requires Run(states, actions) && i < |states|
    ensures forall k | 0 <= k <= i :: CallerOk(states[k])
  {
    if i > 0 {
      CallerAt(states, actions, i - 1);
      ReachableAt(states, actions, i - 1);
      assert StepAt(states, actions, i - 1);
      StepKeepsCaller(states[i - 1], actions[i - 1], states[i]);
    }
  }

  /** The worker's own step, a step of its call of submit, or a step of the thread whose lock that call needs. */
  ghost predicate Brings(s: State, a: Action) {
    match a
    case Own(own) => !own.AskStop?
    case Other(Control(Submit(t, submit))) => t == ME || GP.HolderGoesOn(s.g, a.other)
    case Other(other) => GP.HolderGoesOn(s.g, other)
    case _ => false
  }

  ghost predicate WorkerServed(s: State) {
    exists a, s' :: Step(s, a, s') && Brings(s, a)
  }

  lemma {:induction false} OwnMoves(s: State, a: SourceAction, s': State)
    requires SourceStep(s, a, s') && !a.AskStop?
    ensures WorkerServed(s)
  {
    assert Step(s, Own(a), s');
  }

  lemma {:induction false} DispatcherServes(s: State, c: D.Action, d': D.State)
    requires G.Permitted(s.g, c) && D.Step(s.g.d, c, d') && (DT.HolderStep(s.g.d, c) || (c.Submit? && c.t == ME))
    requires c.Submit? ==> !c.submit.Call?
    ensures WorkerServed(s)
  {
    var a := Other(G.Control(c));
    var s' := s.(g := s.g.(d := d'));
    assert G.Step(s.g, G.Control(c), s'.g);
    assert Step(s, a, s');
    assert Brings(s, a);
  }

  lemma {:induction false} HolderServes(s: State)
    requires GP.ControllerOk(s.g) && DI.LockOk(s.g.d) && s.g.d.life.lock.Some?
    ensures WorkerServed(s)
  {
    DT.HolderMoves(s.g.d);
    var c, d' :| D.Step(s.g.d, c, d') && DT.HolderStep(s.g.d, c);
    assert DI.HoldsLock(s.g.d.pcs[c.t]);
    DispatcherServes(s, c, d');
  }

  /** Its call of submit can go on, or the holder of the lifecycle lock can. */
  lemma {:induction false} SubmitServed(s: State)
    requires CallerOk(s) && GP.ControllerOk(s.g) && DS.Reachable(s.g.d) && s.src.pc.InSubmit?
    requires s.g.d.pcs[ME] != D.Idle
    ensures WorkerServed(s)
  {
    var d, id := s.g.d, s.src.pc.id;
    DS.ReachableInv(d);
    if d.life.lock.Some? {
      HolderServes(s);
    } else {
      assert d.pcs[ME] == D.Submitting(id);
      if !ValidRequest(D.RequestOf(d, id)) {
        DispatcherServes(s, D.Submit(ME, D.Reject), AfterRefusal(d, id, InvalidRequest));
      } else {
        var r := if !d.life.started || d.life.stopping then Stopping else UnknownDevice;
        DispatcherServes(s, D.Submit(ME, D.Enter(false)), AfterRefusal(d, id, r));
      }
    }
  }

  ghost function AfterRefusal(d: D.State, id: D.OpId, r: SubmitResult): (d': D.State)
    requires ME < |d.pcs|
    ensures D.Refuse(d, ME, id, r, d')
  {
    d.(pcs := d.pcs[ME := D.Idle], tally := D.CountOutcome(d.tally, r),
       subs := D.Ended(d.subs, id, D.Returned(r)).(answers := d.subs.answers + [r]))
  }

  lemma {:induction false} CallMoves(s: State)
    requires CallerOk(s) && s.src.pc == Admitted
    ensures WorkerServed(s)
  {
    var d, id, r := s.g.d, |s.g.d.subs.requests|, ControlTypes.Request("", "d", "c", Never, true);
    var d' := d.(pcs := d.pcs[ME := D.Submitting(id)], tally := d.tally.(submitted := d.tally.submitted + 1),
                 subs := d.subs.(requests := d.subs.requests + [r], active := d.subs.active[id := ME]));
    assert D.Step(d, D.Submit(ME, D.Call(r)), d');
    var g' := s.g.(d := d', admitted := s.g.admitted - {ME});
    assert G.Step(s.g, G.Control(D.Submit(ME, D.Call(r))), g');
    OwnMoves(s, Call(r), s.(src := s.src.(pc := InSubmit(id), sent := s.src.sent + {id}), g := g'));
  }

  lemma {:induction false} WorkerCanGoOn(s: State)
    requires Inv(s.g.d, s.src) && CallerOk(s) && GP.ControllerOk(s.g) && DS.Reachable(s.g.d)
    requires s.src.stopRequested && s.src.pc != NotStarted && s.src.pc != Exited
    ensures WorkerServed(s)
  {
    var src := s.src;
    match src.pc
    case Looping => OwnMoves(s, Leave, s.(src := src.(pc := Exited)));
    case Prepared => OwnMoves(s, Abort, s.(src := src.(pc := Dropping)));
    case Dropping => OwnMoves(s, Drop, s.(src := src.(pc := Exited, pending := src.pending - 1)));
    case Declined(id, last) =>
      OwnMoves(s, Decline, s.(src := Settle(src, id).(pc := if last then Exited else Looping)));
    case Admitted => CallMoves(s);
    case InSubmit(id) =>
      if s.g.d.pcs[ME] == D.Idle {
        assert IdInv(s.g.d, src, id);
        var r := s.g.d.subs.outcomes[id];
        var pc := if r == D.Returned(Accepted) then Looping
                  else Declined(id, r == D.Threw || r == D.Returned(Stopping));
        OwnMoves(s, Return, s.(src := src.(pc := pc)));
      } else {
        SubmitServed(s);
      }
  }

  /** While the runtime is inside this source's stop(), either stop() can return, or the worker has not ended and can
      take one of its last steps, or its call of submit or the thread whose lock that call needs can. Together with
      the bound on those steps, the source's stop() does not block the shutdown. */
  lemma {:induction false} StopReturns(states: seq<State>, actions: seq<Action>, i: nat)
    requires Run(states, actions) && i < |states| && Inside(states[i], L.Stop)
    ensures Asked(states[i].src)
    ensures if states[i].src.pc == Exited || states[i].src.pc == NotStarted then MayStop(states[i].src)
            else states[i].src.stopRequested && WorkerServed(states[i])
  {
    AskedBeforeStop(states, actions, i);
    if states[i].src.pc == Exited || states[i].src.pc == NotStarted {
      assert GT.Stops(states[i].g.life.phase, states[i].g.life.phase.j, L.Source, states[i].p);
      StopDoesNotBlock(states, actions, i, states[i].p);
    } else {
      RunInv(states, actions, i);
      CallerAt(states, actions, i);
      var gs, gas := GatewayRun(states, actions, i);
      GP.ControllerRun(gs, gas, |gas|);
      ReachableAt(states, actions, i);
      WorkerCanGoOn(states[i]);
    }
  }
}
