/**
  PeriodicControlSource of tests/simulation/periodic_control_source.cpp running inside the gateway: its worker
  thread submits requests, its completion callbacks run on the dispatcher's worker or on the thread that
  cancels, and both decrement `pending`. The rest of the gateway takes its own steps in between.
*/
module PeriodicSource {
  import opened Options
  import opened ControlTypes
  import G = Gateway
  import D = Dispatcher
  import L = Lifecycle

  datatype Pc =
    | NotStarted
    | Looping
    | Prepared                          // pending incremented
    | Admitted                          // accepting_controls_ seen set
    | Dropping                          // refused or failed before reaching the dispatcher
    | InSubmit(id: D.OpId)
    | Declined(id: D.OpId, last: bool)  // submit refused or threw; `last` ends the loop
    | Exited

  /** `pending` is a size_t in the original: it must never be decremented at zero. `sent` are the submissions
      that reached the dispatcher and `settled` those that have been subtracted again. The two flags say
      whether a running callback of ours has done its subtraction. */
  datatype Source = Source(
    pc: Pc, stopRequested: bool, pending: int, sent: set<D.OpId>, settled: set<D.OpId>,
    workerRan: bool, stopperRan: bool)

  /** The source is the p-th of the runtime's. */
  datatype State = State(g: G.State, p: nat, src: Source)

  const ME: D.Tid := 1  // the source's worker thread among the dispatcher's callers

  ghost predicate Init(s: State) {
    G.Init(s.g) && 1 < |s.g.d.pcs| && s.src == Source(NotStarted, false, 0, {}, {}, false, false)
  }

  datatype SourceAction =
    | Begin
    | AskStop                           // request_stop, which stop also calls
    | Prepare                           // ++pending_
    | Load                              // submit_control reads accepting_controls_
    | Abort                             // an exception before the dispatcher is called
    | Drop                              // complete_one for such a request
    | Call(request: Request)
    | Return                            // the dispatcher's submit has returned or thrown
    | Decline                           // complete_one for a refused submission
    | Leave

  datatype Action =
    | Own(own: SourceAction)
    | Other(other: G.Action)            // any step of the gateway not made by this source
    | CallbackOnWorker                  // complete_one, called back by the dispatcher's worker
    | CallbackOnStopper                 // complete_one, called back while cancelling

  /** The operation whose cancellation callback is running. */
  ghost function Cancelling(d: D.State): Option<D.OpId> {
    if d.life.stopper.Some? && d.life.stopper.value < |d.pcs| && d.pcs[d.life.stopper.value].CancelCallback?
       && d.pcs[d.life.stopper.value].next < |d.flow.cancelled|
    then Some(d.flow.cancelled[d.pcs[d.life.stopper.value].next]) else None
  }

  ghost predicate WorkerCallback(d: D.State, src: Source) {
    d.worker.InCallback? && d.worker.id in src.sent
  }

  ghost predicate StopperCallback(d: D.State, src: Source) {
    Cancelling(d).Some? && Cancelling(d).value in src.sent
  }

  /** Subtracts one for operation id. */
  function Settle(src: Source, id: D.OpId): Source {
    src.(pending := src.pending - 1, settled := src.settled + {id})
  }

  /** The runtime is inside that call of this source. */
  ghost predicate Inside(s: State, verb: L.Verb) {
    var l := s.g.life;
    if verb == L.Start then
      l.phase.Starting? && l.phase.k < |s.g.up| && s.g.up[l.phase.k] == L.Plugin(L.Start, L.Source, s.p)
    else G.InCloseOf(l, L.Plugin(verb, L.Source, s.p))
  }

  ghost predicate SourceStep(s: State, a: SourceAction, s': State) {
    var src := s.src;
    match a
    case Begin => Inside(s, L.Start) && src.pc == NotStarted && s' == s.(src := src.(pc := Looping))
    case AskStop =>
      && (Inside(s, L.RequestStop) || Inside(s, L.Stop)) && src.pc != NotStarted
      && s' == s.(src := src.(stopRequested := true))
    case Prepare =>
      src.pc == Looping && !src.stopRequested && s' == s.(src := src.(pc := Prepared, pending := src.pending + 1))
    case Load =>
      && src.pc == Prepared
      && s' == s.(src := src.(pc := if s.g.life.accepting then Admitted else Dropping),
                  g := if s.g.life.accepting then s.g.(admitted := s.g.admitted + {ME}) else s.g)
    case Abort => src.pc == Prepared && s' == s.(src := src.(pc := Dropping))
    case Drop => src.pc == Dropping && s' == s.(src := src.(pc := Exited, pending := src.pending - 1))
    case Call(request) =>
      && src.pc == Admitted && request.hasCompletion
      && G.Step(s.g, G.Control(D.Submit(ME, D.Call(request))), s'.g)
      && var id := |s.g.d.subs.requests|;
         s' == s.(src := src.(pc := InSubmit(id), sent := src.sent + {id}), g := s'.g)
    case Return =>
      && src.pc.InSubmit?
      && var id := src.pc.id;
         && id !in s.g.d.subs.active && id in s.g.d.subs.outcomes
         && var r := s.g.d.subs.outcomes[id];
            s' == s.(src := src.(pc := if r == D.Returned(Accepted) then Looping
                                       else Declined(id, r == D.Threw || r == D.Returned(Stopping))))
    case Decline =>
      && src.pc.Declined?
      && s' == s.(src := Settle(src, src.pc.id).(pc := if src.pc.last then Exited else Looping))
    case Leave => src.pc == Looping && src.stopRequested && s' == s.(src := src.(pc := Exited))
  }

  /** Nobody is left to wait for in stop(): the worker has ended, or never began, and nothing is pending. */
  ghost predicate MayStop(src: Source) {
    (src.pc == Exited || src.pc == NotStarted) && src.pending == 0
  }

  ghost predicate Asked(src: Source) {
    src.pc == NotStarted || src.stopRequested
  }

  /** A callback of ours returns only after it has called complete_one. start() returns once the worker runs and
      throws before it does; request_stop() returns once the worker is asked; stop() joins the worker and waits
      until nothing is pending. */
  ghost predicate MayStep(s: State, a: G.Action) {
    match a
    case Life(StartNext) => Inside(s, L.Start) ==> s.src.pc != NotStarted
    case Life(StartThrows) => Inside(s, L.Start) ==> s.src.pc == NotStarted
    case Life(CloseNext) =>
      && (Inside(s, L.RequestStop) ==> Asked(s.src))
      && (Inside(s, L.Stop) ==> Asked(s.src) && MayStop(s.src))
    case Admit(t) => t != ME
    case Control(Submit(t, submit)) => t == ME ==> !submit.Call?
    case Control(Work(CallbackReturn)) => WorkerCallback(s.g.d, s.src) ==> s.src.workerRan
    case Control(Stop(_, CancelReturn)) => StopperCallback(s.g.d, s.src) ==> s.src.stopperRan
    case _ => true
  }

  ghost predicate Step(s: State, a: Action, s': State) {
    match a
    case Own(own) => SourceStep(s, own, s')
    case Other(other) =>
      && MayStep(s, other) && G.Step(s.g, other, s'.g)
      && s' == s.(g := s'.g, src := s.src.(workerRan := s.src.workerRan && other != G.Control(D.Work(D.CallbackReturn)),
                                           stopperRan := s.src.stopperRan && !IsCancelReturn(other)))
    case CallbackOnWorker =>
      && WorkerCallback(s.g.d, s.src) && !s.src.workerRan
      && s' == s.(src := Settle(s.src, s.g.d.worker.id).(workerRan := true))
    case CallbackOnStopper =>
      && StopperCallback(s.g.d, s.src) && !s.src.stopperRan
      && s' == s.(src := Settle(s.src, Cancelling(s.g.d).value).(stopperRan := true))
  }

  ghost predicate IsCancelReturn(a: G.Action) {
    a.Control? && a.control.Stop? && a.control.stop == D.CancelReturn
  }

  ghost predicate StepAt(states: seq<State>, actions: seq<Action>, i: nat)
    requires i < |actions| && |states| == |actions| + 1
  {
    Step(states[i], actions[i], states[i + 1])
  }

  ghost predicate Run(states: seq<State>, actions: seq<Action>) {
    && |states| == |actions| + 1 && Init(states[0])
    && forall i | 0 <= i < |actions| :: StepAt(states, actions, i)
  }
}
