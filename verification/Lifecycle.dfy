module Acquisition {
  /** AcquisitionMode of include/gateway/acquisition.hpp: whether a driver delivers by itself or is polled. */
  datatype Mode = Push | Poll
}

/** GatewayRuntime::start, its rollback, and GatewayRuntime::stop of src/core/runtime.cpp, as the sequence of
    calls they make. */
module Lifecycle {
  import opened Acquisition

  datatype Kind = Publisher | Driver | Source
  datatype Verb = Start | RequestStop | Stop

  datatype CoreStep =
    | StartDispatcher | StartProcessing | AcceptControls | CreateScheduler | StartScheduler
    | StopScheduler | JoinScheduler | StopDispatcher | JoinDispatcher | CloseRawQueue | JoinProcessing

  /** One call made while starting or stopping. */
  datatype Op = Plugin(verb: Verb, kind: Kind, index: nat) | Core(step: CoreStep)

  /** How many publishers and sources there are, and the mode of every driver. */
  datatype Shape = Shape(publishers: nat, modes: seq<Mode>, sources: nat)

  function Up(verb: Verb, kind: Kind, n: nat): seq<Op> {
    seq(n, i requires 0 <= i < n => Plugin(verb, kind, i))
  }

  function Down(verb: Verb, kind: Kind, n: nat): seq<Op> {
    seq(n, i requires 0 <= i < n => Plugin(verb, kind, n - 1 - i))
  }

  function InOrder(verb: Verb, kind: Kind, order: seq<nat>): seq<Op> {
    seq(|order|, i requires 0 <= i < |order| => Plugin(verb, kind, order[i]))
  }

  // ----- starting -----

  /** Everything start() does, in order, when nothing throws. */
  function StartScript(s: Shape): seq<Op> {
    Up(Start, Publisher, s.publishers) + Up(Start, Driver, |s.modes|)
    + [Core(StartDispatcher), Core(StartProcessing), Core(AcceptControls)]
    + Up(Start, Source, s.sources) + [Core(CreateScheduler), Core(StartScheduler)]
  }

  /** The position of each of start()'s own steps. */
  function At(s: Shape, step: CoreStep): nat {
    var p := s.publishers + |s.modes|;
    match step
    case StartDispatcher => p
    case StartProcessing => p + 1
    case AcceptControls => p + 2
    case CreateScheduler => p + 3 + s.sources
    case _ => p + 4 + s.sources
  }

  /** What each position of start()'s script is. */
  ghost predicate Laid(s: Shape, script: seq<Op>) {
    && |script| == At(s, StartScheduler) + 1
    && (forall i | 0 <= i < s.publishers :: script[i] == Plugin(Start, Publisher, i))
    && (forall i | 0 <= i < |s.modes| :: script[s.publishers + i] == Plugin(Start, Driver, i))
    && script[At(s, StartDispatcher)] == Core(StartDispatcher)
    && script[At(s, StartProcessing)] == Core(StartProcessing)
    && script[At(s, AcceptControls)] == Core(AcceptControls)
    && (forall i | 0 <= i < s.sources :: script[At(s, AcceptControls) + 1 + i] == Plugin(Start, Source, i))
    && script[At(s, CreateScheduler)] == Core(CreateScheduler)
    && script[At(s, StartScheduler)] == Core(StartScheduler)
  }

  lemma {:induction false} ScriptIsLaid(s: Shape)
    ensures Laid(s, StartScript(s))
  {}

  /** The stages of a start. */
  ghost function StartStage(op: Op): nat {
    match op
    case Plugin(Start, Publisher, _) => 0
    case Plugin(Start, Driver, _) => 1
    case Core(StartDispatcher) => 2
    case Core(StartProcessing) => 3
    case Core(AcceptControls) => 4
    case Plugin(Start, Source, _) => 5
    case Core(CreateScheduler) => 6
    case Core(StartScheduler) => 7
    case _ => 8
  }

  /** Publishers start before the drivers that deliver to them, the dispatcher before controls are accepted, controls
      are accepted before the sources that submit them start, and polling starts last. */
  lemma {:induction false} StartInOrder(s: Shape, i: nat, j: nat)
    requires i <= j < |StartScript(s)|
    ensures StartStage(StartScript(s)[i]) <= StartStage(StartScript(s)[j]) < 8
    ensures i < j && StartScript(s)[i].Core? ==> StartStage(StartScript(s)[i]) < StartStage(StartScript(s)[j])
  {}

  // ----- stopping -----

  /** What there is to stop. */
  datatype Plan = Plan(publishers: nat, drivers: seq<nat>, sources: nat, dispatcher: bool, processing: bool,
                       scheduler: bool)

  /** Producers first: no source, scheduler or dispatcher makes a call after this. */
  function Quiesce(p: Plan): seq<Op> {
    Down(RequestStop, Source, p.sources)
    + (if p.scheduler then [Core(StopScheduler), Core(JoinScheduler)] else [])
    + (if p.dispatcher then [Core(StopDispatcher), Core(JoinDispatcher)] else [])
  }

  function StopDevices(p: Plan): seq<Op> {
    Down(Stop, Source, p.sources) + InOrder(Stop, Driver, p.drivers)
  }

  function Flush(p: Plan): seq<Op> {
    [Core(CloseRawQueue)] + (if p.processing then [Core(JoinProcessing)] else []) + Down(Stop, Publisher, p.publishers)
  }

  function DownScript(p: Plan): seq<Op> {
    Quiesce(p) + StopDevices(p) + Flush(p)
  }

  function WithMode(modes: seq<Mode>, mode: Mode, n: nat): (r: seq<nat>)
    requires n <= |modes|
  {
    if n == 0 then []
    else WithMode(modes, mode, n - 1) + if modes[n - 1] == mode then [n - 1] else []
  }

  /** stop() stops Push drivers first, then Poll drivers. */
  function StopPlan(s: Shape): Plan {
    var drivers := WithMode(s.modes, Push, |s.modes|) + WithMode(s.modes, Poll, |s.modes|);
    Plan(s.publishers, drivers, s.sources, true, true, true)
  }

  function Min(a: nat, b: nat): nat {
    if a < b then a else b
  }

  function Backwards(n: nat): seq<nat> {
    seq(n, i requires 0 <= i < n => n - 1 - i)
  }

  /** The counters when the f-th call of start() throws: every plugin whose start was invoked, including that one,
      and the core parts whose own start completed. */
  function RollbackPlan(s: Shape, f: nat): Plan {
    var drivers := if f < s.publishers then 0 else Min(f + 1 - s.publishers, |s.modes|);
    var sources := if f < At(s, AcceptControls) + 1 then 0 else Min(f - At(s, AcceptControls), s.sources);
    Plan(Min(f + 1, s.publishers), Backwards(drivers), sources,
         At(s, StartDispatcher) < f, At(s, StartProcessing) < f, At(s, CreateScheduler) < f)
  }

  // ----- which plugins receive which call -----

  ghost function Calls(ops: seq<Op>, verb: Verb, kind: Kind): seq<nat> {
    if ops == [] then []
    else Calls(ops[..|ops| - 1], verb, kind) +
         (var op := ops[|ops| - 1]; if op.Plugin? && op.verb == verb && op.kind == kind then [op.index] else [])
  }

  lemma {:induction false} CallsConcat(a: seq<Op>, b: seq<Op>, verb: Verb, kind: Kind)
    ensures Calls(a + b, verb, kind) == Calls(a, verb, kind) + Calls(b, verb, kind)
  {
    if b == [] {
      assert a + b == a;
    } else {
      CallsConcat(a, b[..|b| - 1], verb, kind);
      assert (a + b)[..|a + b| - 1] == a + b[..|b| - 1];
    }
  }

  lemma {:induction false} CallsOf(ops: seq<Op>, order: seq<nat>, verb: Verb, kind: Kind, v: Verb, k: Kind)
    requires |ops| == |order| && forall i | 0 <= i < |ops| :: ops[i] == Plugin(verb, kind, order[i])
    ensures Calls(ops, v, k) == if v == verb && k == kind then order else []
  {
    if ops != [] {
      CallsOf(ops[..|ops| - 1], order[..|ops| - 1], verb, kind, v, k);
      assert order == order[..|ops| - 1] + [order[|ops| - 1]];
    }
  }

  lemma {:induction false} CallsOfCore(ops: seq<Op>, v: Verb, k: Kind)
    requires forall i | 0 <= i < |ops| :: ops[i].Core?
    ensures Calls(ops, v, k) == []
  {
    if ops != [] {
      CallsOfCore(ops[..|ops| - 1], v, k);
    }
  }

  ghost function Reversed(ids: seq<nat>): seq<nat> {
    seq(|ids|, i requires 0 <= i < |ids| => ids[|ids| - 1 - i])
  }

  ghost function Forwards(n: nat): (r: seq<nat>) {
    seq(n, i requires 0 <= i < n => i)
  }

  /** How many plugins of a kind had start() invoked when the f-th call is the last one made. */
  ghost function Invoked(s: Shape, f: nat, kind: Kind): nat {
    var p := RollbackPlan(s, f);
    match kind
    case Publisher => p.publishers
    case Driver => |p.drivers|
    case Source => p.sources
  }

  lemma {:induction false} CallsDown(verb: Verb, kind: Kind, n: nat, v: Verb, k: Kind)
    ensures Calls(Down(verb, kind, n), v, k) == if v == verb && k == kind then Backwards(n) else []
  {
    CallsOf(Down(verb, kind, n), Backwards(n), verb, kind, v, k);
  }

  /** How many plugins of a kind the first n calls of start() start. */
  function StartedBy(s: Shape, n: nat, kind: Kind): nat {
    match kind
    case Publisher => Min(n, s.publishers)
    case Driver => if n < s.publishers then 0 else Min(n - s.publishers, |s.modes|)
    case Source => if n < At(s, AcceptControls) + 1 then 0 else Min(n - At(s, AcceptControls) - 1, s.sources)
  }

  lemma {:induction false} CallsOfStart(s: Shape, up: seq<Op>, n: nat, kind: Kind)
    requires Laid(s, up) && n <= |up|
    ensures Calls(up[..n], Start, kind) == Forwards(StartedBy(s, n, kind))
  {
    if n > 0 {
      CallsOfStart(s, up, n - 1, kind);
      assert up[..n][..n - 1] == up[..n - 1];
      NextStarted(s, up, n - 1, kind);
    }
  }

  /** The n-th call starts the next plugin of its kind. */
  lemma {:induction false} NextStarted(s: Shape, up: seq<Op>, n: nat, kind: Kind)
    requires Laid(s, up) && n < |up|
    ensures var k := StartedBy(s, n, kind);
            if up[n].Plugin? && up[n].kind == kind
            then up[n] == Plugin(Start, kind, k) && StartedBy(s, n + 1, kind) == k + 1
            else StartedBy(s, n + 1, kind) == k
  {
    var p, d := s.publishers, |s.modes|;
    assert n < p ==> up[n] == Plugin(Start, Publisher, n);
    assert p <= n < p + d ==> up[p + (n - p)] == Plugin(Start, Driver, n - p);
    var first := At(s, AcceptControls) + 1;
    assert first <= n < first + s.sources ==> up[first + (n - first)] == Plugin(Start, Source, n - first);
  }

  lemma {:induction false} InvokedIsStarted(s: Shape, f: nat, kind: Kind)
    requires f <= At(s, StartScheduler)
    ensures StartedBy(s, f + 1, kind) == Invoked(s, f, kind)
  {}

  lemma {:induction false} StartedByThen(s: Shape, f: nat, kind: Kind)
    requires f < |StartScript(s)|
    ensures Calls(StartScript(s)[..f + 1], Start, kind) == Forwards(Invoked(s, f, kind))
  {
    var up := StartScript(s);
    ScriptIsLaid(s);
    CallsOfStart(s, up, f + 1, kind);
    InvokedIsStarted(s, f, kind);
  }

  lemma {:induction false} CallsOfParts(a: seq<Op>, b: seq<Op>, c: seq<Op>, verb: Verb, kind: Kind)
    ensures Calls(a + b + c, verb, kind) == Calls(a, verb, kind) + Calls(b, verb, kind) + Calls(c, verb, kind)
  {
    CallsConcat(a + b, c, verb, kind);
    CallsConcat(a, b, verb, kind);
  }

  /** Which plugins a shutdown calls: sources are asked and then stopped backwards, drivers stopped in the
      plan's order, publishers backwards. */
  lemma {:induction false} DownCalls(p: Plan, verb: Verb, kind: Kind)
    ensures Calls(DownScript(p), verb, kind) ==
            if kind == Source && verb != Start then Backwards(p.sources)
            else if kind == Driver && verb == Stop then p.drivers
            else if kind == Publisher && verb == Stop then Backwards(p.publishers) else []
  {
    DownParts(p, verb, kind);
    QuiesceCalls(p, verb, kind);
    StopDevicesCalls(p, verb, kind);
    FlushCalls(p, verb, kind);
  }

  lemma {:induction false} DownParts(p: Plan, verb: Verb, kind: Kind)
    ensures Calls(DownScript(p), verb, kind)
        == Calls(Quiesce(p), verb, kind) + Calls(StopDevices(p), verb, kind) + Calls(Flush(p), verb, kind)
  {
    CallsOfParts(Quiesce(p), StopDevices(p), Flush(p), verb, kind);
  }

  lemma {:induction false} QuiesceCalls(p: Plan, verb: Verb, kind: Kind)
    ensures Calls(Quiesce(p), verb, kind) == if verb == RequestStop && kind == Source then Backwards(p.sources) else []
  {
    var a := Down(RequestStop, Source, p.sources);
    var b := if p.scheduler then [Core(StopScheduler), Core(JoinScheduler)] else [];
    var c := if p.dispatcher then [Core(StopDispatcher), Core(JoinDispatcher)] else [];
    CallsOfParts(a, b, c, verb, kind);
    CallsOfCore(b, verb, kind);
    CallsOfCore(c, verb, kind);
    CallsDown(RequestStop, Source, p.sources, verb, kind);
  }

  lemma {:induction false} StopDevicesCalls(p: Plan, verb: Verb, kind: Kind)
    ensures Calls(StopDevices(p), verb, kind) ==
            if verb == Stop && kind == Source then Backwards(p.sources)
            else if verb == Stop && kind == Driver then p.drivers else []
  {
    CallsConcat(Down(Stop, Source, p.sources), InOrder(Stop, Driver, p.drivers), verb, kind);
    CallsDown(Stop, Source, p.sources, verb, kind);
    CallsOf(InOrder(Stop, Driver, p.drivers), p.drivers, Stop, Driver, verb, kind);
  }

  lemma {:induction false} FlushCalls(p: Plan, verb: Verb, kind: Kind)
    ensures Calls(Flush(p), verb, kind) == if verb == Stop && kind == Publisher then Backwards(p.publishers) else []
  {
    var a, c := [Core(CloseRawQueue)], Down(Stop, Publisher, p.publishers);
    var b := if p.processing then [Core(JoinProcessing)] else [];
    CallsOfParts(a, b, c, verb, kind);
    CallsOfCore(a, verb, kind);
    CallsOfCore(b, verb, kind);
    CallsDown(Stop, Publisher, p.publishers, verb, kind);
  }

  /** Rollback from any point: the plugins of each kind that are stopped are exactly those whose start was
      invoked, each once, in reverse order; and the same sources are asked to stop. */
  lemma {:induction false} RollbackStopsWhatStarted(s: Shape, f: nat, kind: Kind)
    requires f < |StartScript(s)|
    ensures var begun := Calls(StartScript(s)[..f + 1], Start, kind);
            && Calls(DownScript(RollbackPlan(s, f)), Stop, kind) == Reversed(begun)
            && Calls(DownScript(RollbackPlan(s, f)), RequestStop, kind)
                == (if kind == Source then Reversed(begun) else [])
            && begun == Forwards(|begun|)
  {
    StartedByThen(s, f, kind);
    DownCalls(RollbackPlan(s, f), Stop, kind);
    DownCalls(RollbackPlan(s, f), RequestStop, kind);
    ReversedForwards(Invoked(s, f, kind));
    PlanStops(s, f, kind);
  }

  lemma {:induction false} ReversedForwards(n: nat)
    ensures Reversed(Forwards(n)) == Backwards(n)
  {}

  lemma {:induction false} PlanStops(s: Shape, f: nat, kind: Kind)
    ensures var p := RollbackPlan(s, f);
            Backwards(Invoked(s, f, kind)) ==
            match kind
            case Publisher => Backwards(p.publishers)
            case Driver => p.drivers
            case Source => Backwards(p.sources)
  {}

  // ----- the order of a shutdown -----

  /** Calls before the i-th of a shutdown that its i-th call relies on. */
  ghost predicate Follows(p: Plan, i: nat, step: CoreStep)
    requires i <= |DownScript(p)|
  {
    exists k :: 0 <= k < i && DownScript(p)[k] == Core(step)
  }

  /** Where each part of a shutdown begins. */
  function DownAt(p: Plan, step: CoreStep): nat {
    var a := p.sources + if p.scheduler then 2 else 0;
    var b := a + (if p.dispatcher then 2 else 0) + p.sources + |p.drivers|;
    match step
    case StopScheduler => p.sources
    case JoinScheduler => p.sources + 1
    case StopDispatcher => a
    case JoinDispatcher => a + 1
    case CloseRawQueue => b
    case _ => b + 1
  }

  /** Before the i-th call of a shutdown that plugin has been stopped. */
  ghost predicate StoppedBefore(p: Plan, i: nat, kind: Kind, index: nat)
    requires i <= |DownScript(p)|
  {
    exists k :: 0 <= k < i && DownScript(p)[k] == Plugin(Stop, kind, index)
  }

  /** The stages of a shutdown. */
  ghost function Stage(op: Op): nat {
    match op
    case Plugin(RequestStop, _, _) => 0
    case Core(StopScheduler) => 1
    case Core(JoinScheduler) => 2
    case Core(StopDispatcher) => 3
    case Core(JoinDispatcher) => 4
    case Plugin(Stop, Source, _) => 5
    case Plugin(Stop, Driver, _) => 6
    case Core(CloseRawQueue) => 7
    case Core(JoinProcessing) => 8
    case Plugin(Stop, Publisher, _) => 9
    case _ => 10
  }

  /** No call of a shutdown comes before a call of an earlier stage. */
  lemma {:induction false} StagesInOrder(p: Plan, i: nat, j: nat)
    requires i <= j < |DownScript(p)|
    ensures Stage(DownScript(p)[i]) <= Stage(DownScript(p)[j]) < 10
  {}

  /** The raw queue is closed only when every source and every driver has been stopped, and no driver is stopped
      before every source has been. */
  lemma {:induction false} ProducersFirst(p: Plan, i: nat)
    requires i < |DownScript(p)| && 6 <= Stage(DownScript(p)[i])
    ensures forall n | 0 <= n < p.sources :: StoppedBefore(p, i, Source, n)
    ensures 7 <= Stage(DownScript(p)[i]) ==> forall d | d in p.drivers :: StoppedBefore(p, i, Driver, d)
  {
    var script := DownScript(p);
    forall n | 0 <= n < p.sources
      ensures StoppedBefore(p, i, Source, n)
    {
      var k := |Quiesce(p)| + p.sources - 1 - n;
      assert script[k] == Plugin(Stop, Source, n);
      if i < k {
        StagesInOrder(p, i, k);
      }
    }
    if 7 <= Stage(script[i]) {
      forall d | d in p.drivers
        ensures StoppedBefore(p, i, Driver, d)
      {
        var e :| 0 <= e < |p.drivers| && p.drivers[e] == d;
        var k := |Quiesce(p)| + p.sources + e;
        assert script[k] == Plugin(Stop, Driver, d);
        if i < k {
          StagesInOrder(p, i, k);
        }
      }
    }
  }

  /** What the i-th call of a shutdown relies on when it waits, or when it stops what others may be using. */
  ghost predicate JoinsFirst(p: Plan, i: nat)
    requires i < |DownScript(p)|
  {
    var op := DownScript(p)[i];
    && (op.Plugin? && op.verb == Stop ==>
          (p.scheduler ==> Follows(p, i, JoinScheduler)) && (p.dispatcher ==> Follows(p, i, JoinDispatcher)))
    && (op.Plugin? && op.verb == Stop && op.kind == Publisher ==>
          Follows(p, i, CloseRawQueue) && (p.processing ==> Follows(p, i, JoinProcessing)))
    && (op.Plugin? && op.verb == RequestStop ==> !Follows(p, i, JoinDispatcher) && !Follows(p, i, JoinScheduler))
    && (op == Core(JoinScheduler) ==> Follows(p, i, StopScheduler))
    && (op == Core(JoinDispatcher)
        ==> p.dispatcher && Follows(p, i, StopDispatcher) && (p.scheduler ==> Follows(p, i, JoinScheduler)))
    && (op == Core(JoinProcessing) ==> p.processing && Follows(p, i, CloseRawQueue))
  }

  lemma {:induction false} JoinsComeFirst(p: Plan, i: nat)
    requires i < |DownScript(p)|
    ensures JoinsFirst(p, i)
  {
    var script := DownScript(p);
    assert p.scheduler ==> script[DownAt(p, StopScheduler)] == Core(StopScheduler);
    assert p.scheduler ==> script[DownAt(p, JoinScheduler)] == Core(JoinScheduler);
    assert p.dispatcher ==> script[DownAt(p, StopDispatcher)] == Core(StopDispatcher);
    assert p.dispatcher ==> script[DownAt(p, JoinDispatcher)] == Core(JoinDispatcher);
    assert script[DownAt(p, CloseRawQueue)] == Core(CloseRawQueue);
    assert p.processing ==> script[DownAt(p, JoinProcessing)] == Core(JoinProcessing);
    assert forall k | 0 <= k < p.sources :: script[k].Plugin?;
  }

  /** Sources are asked to stop before the dispatcher is joined, and stopped after; drivers are stopped after
      both the scheduler and the dispatcher are joined and after every source; the raw queue is closed after every
      driver is stopped; publishers are stopped after the processing worker is joined. */
  lemma {:induction false} ShutdownOrder(p: Plan, i: nat)
    requires i < |DownScript(p)|
    ensures JoinsFirst(p, i)
    ensures var op := DownScript(p)[i];
            && (op == Core(CloseRawQueue) ==> (forall d | d in p.drivers :: StoppedBefore(p, i, Driver, d))
                                              && forall n | 0 <= n < p.sources :: StoppedBefore(p, i, Source, n))
            && (op.Plugin? && op.verb == Stop && op.kind == Driver
                ==> forall n | 0 <= n < p.sources :: StoppedBefore(p, i, Source, n))
  {
    JoinsComeFirst(p, i);
    if 6 <= Stage(DownScript(p)[i]) {
      ProducersFirst(p, i);
    }
  }

  // ----- a full stop -----

  /** Every index below n of that mode, once, in order. */
  lemma {:induction false} WithModeMembers(modes: seq<Mode>, mode: Mode, n: nat)
    requires n <= |modes|
    ensures var r := WithMode(modes, mode, n);
            && (forall d :: d in r <==> 0 <= d < n && modes[d] == mode)
            && (forall i, j | 0 <= i < j < |r| :: r[i] < r[j])
  {
    if n > 0 {
      WithModeMembers(modes, mode, n - 1);
      var was := WithMode(modes, mode, n - 1);
      assert forall i | 0 <= i < |was| :: was[i] in was;
    }
  }

  ghost predicate HasMode(s: Shape, d: nat, mode: Mode) {
    d < |s.modes| && s.modes[d] == mode
  }

  lemma {:induction false} DriversAll(s: Shape, d: nat)
    ensures d in StopPlan(s).drivers <==> d < |s.modes|
  {
    WithModeMembers(s.modes, Push, |s.modes|);
    WithModeMembers(s.modes, Poll, |s.modes|);
  }

  /** Every number of the first list has the first mode, every number of the second the second. */
  lemma {:induction false} DriversOnce(s: Shape, i: nat, j: nat)
    requires i < j < |StopPlan(s).drivers|
    ensures var drivers := StopPlan(s).drivers;
            drivers[i] != drivers[j] && (HasMode(s, drivers[i], Poll) ==> HasMode(s, drivers[j], Poll))
  {
    WithModeMembers(s.modes, Push, |s.modes|);
    WithModeMembers(s.modes, Poll, |s.modes|);
    var push, poll := WithMode(s.modes, Push, |s.modes|), WithMode(s.modes, Poll, |s.modes|);
    assert i < |push| ==> push[i] in push;
    assert i >= |push| ==> poll[i - |push|] in poll;
    assert j < |push| ==> push[j] in push;
    assert j >= |push| ==> poll[j - |push|] in poll;
  }

  /** stop() stops every publisher, source and driver exactly once, Push drivers before Poll drivers. */
  lemma {:induction false} StopStopsEverything(s: Shape)
    ensures var ops := DownScript(StopPlan(s));
            var drivers := Calls(ops, Stop, Driver);
            && Calls(ops, Stop, Publisher) == Backwards(s.publishers)
            && Calls(ops, RequestStop, Source) == Calls(ops, Stop, Source) == Backwards(s.sources)
            && (forall d :: d in drivers <==> 0 <= d < |s.modes|)
            && (forall i, j | 0 <= i < j < |drivers| ::
                  drivers[i] != drivers[j] && (HasMode(s, drivers[i], Poll) ==> HasMode(s, drivers[j], Poll)))
  {
    var p := StopPlan(s);
    DownCalls(p, Stop, Publisher);
    DownCalls(p, Stop, Driver);
    DownCalls(p, Stop, Source);
    DownCalls(p, RequestStop, Source);
    forall d: nat
      ensures d in p.drivers <==> 0 <= d < |s.modes|
    {
      DriversAll(s, d);
    }
    forall i, j | 0 <= i < j < |p.drivers|
      ensures p.drivers[i] != p.drivers[j] && (HasMode(s, p.drivers[i], Poll) ==> HasMode(s, p.drivers[j], Poll))
    {
      DriversOnce(s, i, j);
    }
  }
}

/** The lifecycle of GatewayRuntime as a class. Each method is one whole call; callers that overlap are the
    subject of module Gateway. */
module RuntimeLifecycle {
  import opened Acquisition
  import opened Lifecycle

  datatype StartResult = Started | AlreadyStarted | RolledBack

  /** The f-th call is the first that throws. */
  ghost predicate FailsAt(ops: seq<Op>, failing: set<Op>, f: nat) {
    f < |ops| && ops[f] in failing && forall i | 0 <= i < f :: ops[i] !in failing
  }

  ghost predicate AllPass(ops: seq<Op>, failing: set<Op>) {
    forall i | 0 <= i < |ops| :: ops[i] !in failing
  }

  lemma {:induction false} PublisherFailed(s: Shape, count: nat)
    requires 0 < count <= s.publishers
    ensures RollbackPlan(s, count - 1) == Plan(count, [], 0, false, false, false)
  {}

  lemma {:induction false} DriverFailed(s: Shape, count: nat)
    requires 0 < count <= |s.modes|
    ensures RollbackPlan(s, s.publishers + count - 1) == Plan(s.publishers, Backwards(count), 0, false, false, false)
  {}

  /** What the handler finds when one of start()'s own steps, or the count-th source, throws. */
  lemma {:induction false} CoreFailed(s: Shape)
    ensures var p := Plan(s.publishers, Backwards(|s.modes|), 0, false, false, false);
            && RollbackPlan(s, At(s, StartDispatcher)) == p
            && RollbackPlan(s, At(s, StartProcessing)) == p.(dispatcher := true)
            && RollbackPlan(s, At(s, CreateScheduler))
                == p.(dispatcher := true, processing := true, sources := s.sources)
            && RollbackPlan(s, At(s, StartScheduler))
               == p.(dispatcher := true, processing := true, sources := s.sources, scheduler := true)
  {}

  lemma {:induction false} SourceFailed(s: Shape, count: nat)
    requires 0 < count <= s.sources
    ensures RollbackPlan(s, At(s, AcceptControls) + count)
            == Plan(s.publishers, Backwards(|s.modes|), count, true, true, false)
  {}

  class GatewayRuntime {
    const shape: Shape
    var started: bool
    var stopping: bool
    var stopped: bool
    var accepting: bool
    ghost var trace: seq<Op>  // every call made so far

    ghost predicate Valid() reads this {
      && !stopping && (stopped ==> started)
      && (accepting <==> started && !stopped)
    }

    constructor (shape: Shape)
      ensures Valid() && !started && trace == [] && this.shape == shape
    {
      this.shape := shape;
      started, stopping, stopped, accepting := false, false, false, false;
      trace := [];
    }

    /** Makes one call, which throws when it is in `failing`. */
    method Do(op: Op, failing: set<Op>) returns (ok: bool)
      modifies this`trace
      ensures trace == old(trace) + [op]
      ensures ok <==> op !in failing
    {
      trace := trace + [op];
      ok := op !in failing;
    }

    /** The first k calls of the script have been made and returned. */
    ghost predicate Made(was: seq<Op>, script: seq<Op>, k: nat, failing: set<Op>) reads this {
      k <= |script| && trace == was + script[..k] && AllPass(script[..k], failing)
    }

    /** The call after them was made and threw. */
    ghost predicate Broke(was: seq<Op>, script: seq<Op>, f: nat, failing: set<Op>) reads this {
      FailsAt(script, failing, f) && trace == was + script[..f + 1]
    }

    /** Makes the k-th call of the script. */
    method Next(op: Op, failing: set<Op>, ghost was: seq<Op>, ghost script: seq<Op>, ghost k: nat) returns (ok: bool)
      requires Made(was, script, k, failing) && k < |script| && script[k] == op
      modifies this`trace
      ensures ok ==> Made(was, script, k + 1, failing)
      ensures !ok ==> Broke(was, script, k, failing)
      ensures !ok ==> op in failing
    {
      ok := Do(op, failing);
      assert script[..k + 1] == script[..k] + [op];
      assert forall i | 0 <= i < k :: script[i] == script[..k][i];
    }

    /** Starts the plugins of one kind; each is counted before it is called. */
    method StartKind(kind: Kind, n: nat, failing: set<Op>, ghost was: seq<Op>, ghost script: seq<Op>, ghost k: nat)
      returns (ok: bool, count: nat)
      requires Made(was, script, k, failing) && k + n <= |script|
      requires forall i | 0 <= i < n :: script[k + i] == Plugin(Start, kind, i)
      modifies this`trace
      ensures ok ==> count == n && Made(was, script, k + n, failing)
      ensures !ok ==> 0 < count <= n && Broke(was, script, k + count - 1, failing)
    {
      count := 0;
      while count < n
        invariant 0 <= count <= n && Made(was, script, k + count, failing)
      {
        count := count + 1;
        ok := Next(Plugin(Start, kind, count - 1), failing, was, script, k + (count - 1));
        if !ok {
          return;
        }
      }
      ok := true;
    }

    /** The first half of start()'s try block: publishers, then drivers. */
    method BringUpDevices(failing: set<Op>, ghost was: seq<Op>, ghost script: seq<Op>)
      returns (ok: bool, p: Plan, ghost f: nat)
      requires Laid(shape, script) && Made(was, script, 0, failing)
      modifies this`trace
      ensures ok ==> Made(was, script, At(shape, StartDispatcher), failing)
      ensures ok ==> p == Plan(shape.publishers, Backwards(|shape.modes|), 0, false, false, false)
      ensures !ok ==> Broke(was, script, f, failing) && p == RollbackPlan(shape, f)
    {
      var count;
      ok, count := StartKind(Publisher, shape.publishers, failing, was, script, 0);
      p := Plan(count, [], 0, false, false, false);
      f := count - if ok then 0 else 1;
      if !ok {
        PublisherFailed(shape, count);
        return;
      }
      ok, count := StartKind(Driver, |shape.modes|, failing, was, script, shape.publishers);
      p := p.(drivers := Backwards(count));
      f := shape.publishers + count - if ok then 0 else 1;
      if !ok {
        DriverFailed(shape, count);
      }
    }

    /** The second half: the dispatcher, the processing worker, the sources and the scheduler. */
    method BringUpWorkers(failing: set<Op>, before: Plan, ghost was: seq<Op>, ghost script: seq<Op>)
      returns (ok: bool, p: Plan, ghost f: nat)
      requires Core(AcceptControls) !in failing && Laid(shape, script)
      requires Made(was, script, At(shape, StartDispatcher), failing)
      requires before == Plan(shape.publishers, Backwards(|shape.modes|), 0, false, false, false)
      modifies this`trace, this`accepting
      ensures ok ==> Made(was, script, |script|, failing) && accepting
      ensures !ok ==> Broke(was, script, f, failing) && p == RollbackPlan(shape, f)
    {
      var count;
      CoreFailed(shape);
      f, p := At(shape, StartDispatcher), before;
      ok := Next(Core(StartDispatcher), failing, was, script, f);
      if !ok {
        return;
      }
      f, p := At(shape, StartProcessing), p.(dispatcher := true);
      ok := Next(Core(StartProcessing), failing, was, script, f);
      if !ok {
        return;
      }
      f, p := At(shape, AcceptControls), p.(processing := true);
      ok := Next(Core(AcceptControls), failing, was, script, f);
      accepting := true;
      ok, count := StartKind(Source, shape.sources, failing, was, script, f + 1);
      p := p.(sources := count);
      if !ok {
        SourceFailed(shape, count);
        f := f + count;
        return;
      }
      f := At(shape, CreateScheduler);
      ok := Next(Core(CreateScheduler), failing, was, script, f);
      if !ok {
        return;
      }
      f, p := At(shape, StartScheduler), p.(scheduler := true);
      ok := Next(Core(StartScheduler), failing, was, script, f);
    }

    /** The whole try block. When a call throws, `p` is what the handler finds started. */
    method BringUp(failing: set<Op>, ghost script: seq<Op>) returns (ok: bool, p: Plan, ghost f: nat)
      requires Core(AcceptControls) !in failing && Laid(shape, script)
      modifies this`trace, this`accepting
      ensures ok ==> AllPass(script, failing) && trace == old(trace) + script && accepting
      ensures !ok ==> Broke(old(trace), script, f, failing) && p == RollbackPlan(shape, f)
    {
      ghost var was := trace;
      ok, p, f := BringUpDevices(failing, was, script);
      if ok {
        ok, p, f := BringUpWorkers(failing, p, was, script);
      }
      assert script[..|script|] == script;
    }

    /** Calls the plugins of one kind backwards. */
    method CallBackwards(verb: Verb, kind: Kind, n: nat)
      modifies this`trace
      ensures trace == old(trace) + Down(verb, kind, n)
    {
      ghost var all := Down(verb, kind, n);
      var index := n;
      while index > 0
        invariant 0 <= index <= n && trace == old(trace) + all[..n - index]
      {
        assert all[..n - index] + [all[n - index]] == all[..n - index + 1];
        var _ := Do(Plugin(verb, kind, index - 1), {});
        index := index - 1;
      }
      assert all[..n] == all;
    }

    /** Stops everything that makes calls of its own. */
    method StopProducers(ghost p: Plan, sources: nat, scheduler: bool, dispatcher: bool)
      requires p.sources == sources && p.scheduler == scheduler && p.dispatcher == dispatcher
      modifies this`trace
      ensures trace == old(trace) + Quiesce(p)
    {
      CallBackwards(RequestStop, Source, sources);
      if scheduler {
        var _ := Do(Core(StopScheduler), {});
        var _ := Do(Core(JoinScheduler), {});
      }
      if dispatcher {
        var _ := Do(Core(StopDispatcher), {});
        var _ := Do(Core(JoinDispatcher), {});
      }
    }

    /** Drains the data plane and stops the publishers. */
    method StopData(ghost p: Plan, processing: bool, publishers: nat)
      requires p.processing == processing && p.publishers == publishers
      modifies this`trace
      ensures trace == old(trace) + Flush(p)
    {
      var _ := Do(Core(CloseRawQueue), {});
      if processing {
        var _ := Do(Core(JoinProcessing), {});
      }
      CallBackwards(Stop, Publisher, publishers);
    }

    /** The handler of start(): undoes what `p` says was begun. */
    method RollBack(p: Plan)
      requires p.drivers == Backwards(|p.drivers|)
      modifies this`trace
      ensures trace == old(trace) + DownScript(p)
    {
      StopProducers(p, p.sources, p.scheduler, p.dispatcher);
      CallBackwards(Stop, Source, p.sources);
      CallBackwards(Stop, Driver, |p.drivers|);
      assert Down(Stop, Driver, |p.drivers|) == InOrder(Stop, Driver, p.drivers);
      assert trace == old(trace) + Quiesce(p) + StopDevices(p);
      StopData(p, p.processing, p.publishers);
    }

    /** start() makes every call of the script, or the calls up to the first that throws followed by the
        rollback from that point. A second start() makes none. */
    method StartRuntime(failing: set<Op>) returns (r: StartResult, ghost f: nat)
      requires Valid() && Core(AcceptControls) !in failing
      modifies this
      ensures Valid() && started
      ensures r == AlreadyStarted <==> old(started)
      ensures r == AlreadyStarted ==> trace == old(trace) && stopped == old(stopped)
      ensures r == Started ==> AllPass(StartScript(shape), failing) && !stopped
      ensures r == Started ==> trace == old(trace) + StartScript(shape)
      ensures r == RolledBack ==> FailsAt(StartScript(shape), failing, f) && stopped
      ensures r == RolledBack ==> trace == old(trace) + StartScript(shape)[..f + 1] + DownScript(RollbackPlan(shape, f))
    {
      if started {
        r, f := AlreadyStarted, 0;
        return;
      }
      started := true;
      ghost var script := StartScript(shape);
      ScriptIsLaid(shape);
      var ok, p;
      ok, p, f := BringUp(failing, script);
      if ok {
        r := Started;
        return;
      }
      accepting, stopping := false, true;
      RollBack(p);
      stopping, stopped := false, true;
      r := RolledBack;
    }

    /** Stops the drivers of one mode, in the order they are configured. */
    method StopDrivers(mode: Mode)
      modifies this`trace
      ensures trace == old(trace) + InOrder(Stop, Driver, WithMode(shape.modes, mode, |shape.modes|))
    {
      var i := 0;
      while i < |shape.modes|
        invariant 0 <= i <= |shape.modes|
        invariant trace == old(trace) + InOrder(Stop, Driver, WithMode(shape.modes, mode, i))
      {
        ghost var so := WithMode(shape.modes, mode, i);
        if shape.modes[i] == mode {
          assert InOrder(Stop, Driver, so + [i]) == InOrder(Stop, Driver, so) + [Plugin(Stop, Driver, i)];
          var _ := Do(Plugin(Stop, Driver, i), {});
        }
        i := i + 1;
      }
    }

    /** Push drivers first, then Poll drivers. */
    method StopAllDrivers(ghost order: seq<nat>)
      requires order == WithMode(shape.modes, Push, |shape.modes|) + WithMode(shape.modes, Poll, |shape.modes|)
      modifies this`trace
      ensures trace == old(trace) + InOrder(Stop, Driver, order)
    {
      StopDrivers(Push);
      StopDrivers(Poll);
      ghost var push, poll := WithMode(shape.modes, Push, |shape.modes|), WithMode(shape.modes, Poll, |shape.modes|);
      assert InOrder(Stop, Driver, push + poll) == InOrder(Stop, Driver, push) + InOrder(Stop, Driver, poll);
    }

    /** All sources, both workers' producers, all drivers and all publishers. */
    method ShutDown(ghost p: Plan)
      requires p.sources == shape.sources && p.scheduler && p.dispatcher && p.processing
      requires p.publishers == shape.publishers
      requires p.drivers == WithMode(shape.modes, Push, |shape.modes|) + WithMode(shape.modes, Poll, |shape.modes|)
      modifies this`trace
      ensures trace == old(trace) + DownScript(p)
    {
      StopProducers(p, shape.sources, true, true);
      StopAllDevices(p);
      StopData(p, true, shape.publishers);
    }

    method StopAllDevices(ghost p: Plan)
      requires p.sources == shape.sources
      requires p.drivers == WithMode(shape.modes, Push, |shape.modes|) + WithMode(shape.modes, Poll, |shape.modes|)
      modifies this`trace
      ensures trace == old(trace) + StopDevices(p)
    {
      CallBackwards(Stop, Source, shape.sources);
      StopAllDrivers(p.drivers);
    }

    /** stop() makes every call of the shutdown script when the runtime is running, and no call at all before
        start() or after an earlier stop() or rollback. */
    method StopRuntime()
      requires Valid()
      modifies this
      ensures Valid() && started == old(started) && (started ==> stopped)
      ensures trace == old(trace) + if old(accepting) then DownScript(StopPlan(shape)) else []
    {
      if !started || stopped {
        return;
      }
      stopping, accepting := true, false;
      ShutDown(StopPlan(shape));
      stopping, stopped := false, true;
    }
  }
}
