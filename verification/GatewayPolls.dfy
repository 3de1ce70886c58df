/** From the drivers to the raw queue: every batch a poll returns is handed to the queue, every poll is counted, and
    the queue stays open until the last driver has been stopped. */
module GatewayPolls {
  import opened Lifecycle
  import opened Gateway
  import opened GatewayInvariant
  import opened GatewayTheorems
  import D = Dispatcher
  import P = DataPlane

  // ----- what polls return -----

  /** The batch driver.poll returns in this step. */
  ghost function ReturnedBy(a: Action): seq<P.Batch> {
    if a.Poll? && a.poll.PollReturns? then [a.poll.batch] else []
  }

  ghost function InStore(w: Poller): seq<P.Batch> {
    if w.Storing? then [w.batch] else []
  }

  /** The batch the scheduler thread hands to try_push in this step. */
  ghost function OfferedBy(s: State, a: Action): seq<P.Batch> {
    if a == Poll(PollAction.Store) then InStore(s.polls.poller) else []
  }

  ghost function Returned(actions: seq<Action>, n: nat): seq<P.Batch>
    requires n <= |actions|
  {
    if n == 0 then [] else Returned(actions, n - 1) + ReturnedBy(actions[n - 1])
  }

  ghost function Offered(states: seq<State>, actions: seq<Action>, n: nat): seq<P.Batch>
    requires n <= |actions| && n <= |states|
  {
    if n == 0 then [] else Offered(states, actions, n - 1) + OfferedBy(states[n - 1], actions[n - 1])
  }

  /** The scheduler thread begins when it has not begun yet. */
  lemma {:induction false} StartsOnce(s: State, a: LifeAction, s': State)
    requires BegunOk(s) && Placed(s.shape, s.up) && LifeStep(s, a, s')
    ensures s'.polls.poller == s.polls.poller || (s.polls.poller == Unborn && s'.polls.poller == Resting)
  {}

  lemma {:induction false} HandedOn(s: State, a: Action, s': State)
    requires BegunOk(s) && ScriptOk(s) && Step(s, a, s')
    ensures OfferedBy(s, a) + InStore(s'.polls.poller) == InStore(s.polls.poller) + ReturnedBy(a)
  {
    if a.Life? {
      ScriptIsPlaced(s.shape);
      StartsOnce(s, a.life, s');
    }
  }

  /** A step hands on what the thread had in its hand before, or keeps it. */
  ghost predicate HandsOn(states: seq<State>, actions: seq<Action>, m: nat)
    requires m < |actions| && m + 1 < |states|
  {
    OfferedBy(states[m], actions[m]) + InStore(states[m + 1].polls.poller)
        == InStore(states[m].polls.poller) + ReturnedBy(actions[m])
  }

  lemma Joined(all: seq<P.Batch>, was: seq<P.Batch>, now: seq<P.Batch>, returned: seq<P.Batch>, offered: seq<P.Batch>)
    requires offered + now == was + returned
    ensures (all + was) + returned == (all + offered) + now
  {
    assert (all + was) + returned == all + (was + returned);
    assert (all + offered) + now == all + (offered + now);
  }

  lemma {:induction false} AllHandedOn(states: seq<State>, actions: seq<Action>, i: nat)
    requires |states| == |actions| + 1 && i < |states| && InStore(states[0].polls.poller) == []
    requires forall m | 0 <= m < i :: HandsOn(states, actions, m)
    ensures Returned(actions, i) == Offered(states, actions, i) + InStore(states[i].polls.poller)
  {
    if i > 0 {
      AllHandedOn(states, actions, i - 1);
      assert HandsOn(states, actions, i - 1);
      Joined(Offered(states, actions, i - 1), InStore(states[i - 1].polls.poller), InStore(states[i].polls.poller),
             ReturnedBy(actions[i - 1]), OfferedBy(states[i - 1], actions[i - 1]));
    }
  }

  /** In every state of every run, the batches that polls have returned are those handed to the raw queue, in order,
      and the one that is about to be. So nothing is left over once the scheduler thread rests or has ended. */
  lemma PollsAreOffered(states: seq<State>, actions: seq<Action>, i: nat)
    requires Run(states, actions) && i < |states|
    ensures Returned(actions, i) == Offered(states, actions, i) + InStore(states[i].polls.poller)
    ensures states[i].polls.poller == Resting || states[i].polls.poller == Gone
        ==> Returned(actions, i) == Offered(states, actions, i)
  {
    forall m | 0 <= m < i
      ensures HandsOn(states, actions, m)
    {
      HandedOnAt(states, actions, m);
    }
    AllHandedOn(states, actions, i);
  }

  lemma {:induction false} HandedOnAt(states: seq<State>, actions: seq<Action>, i: nat)
    requires Run(states, actions) && i < |actions|
    ensures HandsOn(states, actions, i)
  {
    RunInv(states, actions, i);
    assert StepAt(states, actions, i);
    HandedOn(states[i], actions[i], states[i + 1]);
  }

  /** Handing a batch to the queue: it goes to the end unless the queue is closed or full. */
  ghost predicate Enters(s: P.State, batch: P.Batch, s': P.State) {
    if !s.raw.closed && |s.raw.items| < s.raw.capacity
    then s'.raw.items == s.raw.items + [batch] && s'.pushed == s.pushed + [batch]
    else s'.raw.items == s.raw.items && s'.pushed == s.pushed
  }

  ghost predicate EntersAt(states: seq<State>, actions: seq<Action>, i: nat)
    requires i < |actions| && i + 1 < |states|
  {
    && (actions[i] == Poll(PollAction.Store) ==>
          && states[i].polls.poller.Storing?
          && Enters(states[i].data, states[i].polls.poller.batch, states[i + 1].data))
    && (actions[i].Data? && actions[i].data.Store? ==>
          Enters(states[i].data, actions[i].data.batch, states[i + 1].data))
  }

  /** What the scheduler thread hands over, and what a driver delivers by itself, enters the queue. */
  lemma OfferedEnters(states: seq<State>, actions: seq<Action>)
    requires Run(states, actions)
    ensures forall i | 0 <= i < |actions| :: EntersAt(states, actions, i)
  {
    forall i | 0 <= i < |actions|
      ensures EntersAt(states, actions, i)
    {
      assert StepAt(states, actions, i);
    }
  }

  // ----- the counters of polling -----

  datatype PollEvent = Picked | HandedOver | FoundFull | Threw | TimedOut | Late

  ghost predicate Happens(s: State, a: Action, e: PollEvent) {
    && a.Poll?
    && match e
       case Picked => a.poll.Pick?
       case HandedOver => a.poll == PollAction.Store
       case FoundFull =>
         a.poll == PollAction.Store && !s.data.raw.closed && |s.data.raw.items| >= s.data.raw.capacity
       case Threw => a.poll == GateThrows || a.poll == PollThrows
       case TimedOut => a.poll == Miss
       case Late => a.poll.PollReturns? && a.poll.late
  }

  ghost function Times(states: seq<State>, actions: seq<Action>, n: nat, e: PollEvent): nat
    requires n <= |actions| && n <= |states|
  {
    if n == 0 then 0
    else Times(states, actions, n - 1, e) + if Happens(states[n - 1], actions[n - 1], e) then 1 else 0
  }

  ghost function One(b: bool): nat {
    if b then 1 else 0
  }

  lemma {:induction false} StatsMove(s: State, a: Action, s': State)
    requires Step(s, a, s')
    ensures s'.polls.stats.polls == s.polls.stats.polls + One(Happens(s, a, HandedOver))
    ensures s'.polls.stats.errors == s.polls.stats.errors + One(Happens(s, a, Threw))
    ensures s'.polls.stats.misses == s.polls.stats.misses + One(Happens(s, a, TimedOut)) + One(Happens(s, a, Late))
    ensures s'.polls.stats.queueFull == s.polls.stats.queueFull + One(Happens(s, a, FoundFull))
  {}

  /** A poll has begun and not been counted as polled, failed or timed out. */
  ghost predicate InPoll(w: Poller) {
    w.AtGate? || w.Polling? || w.Storing?
  }

  lemma {:induction false} OnePollAtATime(s: State, a: Action, s': State)
    requires BegunOk(s) && ScriptOk(s) && Step(s, a, s')
    ensures One(InPoll(s'.polls.poller)) + One(Happens(s, a, HandedOver)) + One(Happens(s, a, Threw))
            + One(Happens(s, a, TimedOut)) == One(InPoll(s.polls.poller)) + One(Happens(s, a, Picked))
  {
    if a.Life? {
      ScriptIsPlaced(s.shape);
      StartsOnce(s, a.life, s');
    }
  }

  ghost predicate CountersFit(states: seq<State>, actions: seq<Action>, i: nat)
    requires i <= |actions| && i < |states|
  {
    var stats := states[i].polls.stats;
    && stats.polls == Times(states, actions, i, HandedOver)
    && stats.errors == Times(states, actions, i, Threw)
    && stats.misses == Times(states, actions, i, TimedOut) + Times(states, actions, i, Late)
    && stats.queueFull == Times(states, actions, i, FoundFull)
  }

  lemma {:induction false} CountersRun(states: seq<State>, actions: seq<Action>, i: nat)
    requires Run(states, actions) && i < |states|
    ensures CountersFit(states, actions, i)
  {
    if i > 0 {
      CountersRun(states, actions, i - 1);
      assert StepAt(states, actions, i - 1);
      StatsMove(states[i - 1], actions[i - 1], states[i]);
    }
  }

  lemma {:induction false} PicksRun(states: seq<State>, actions: seq<Action>, i: nat)
    requires Run(states, actions) && i < |states|
    ensures Times(states, actions, i, HandedOver) + Times(states, actions, i, Threw)
            + Times(states, actions, i, TimedOut) + One(InPoll(states[i].polls.poller))
            == Times(states, actions, i, Picked)
  {
    if i > 0 {
      PicksRun(states, actions, i - 1);
      assert StepAt(states, actions, i - 1);
      RunInv(states, actions, i - 1);
      OnePollAtATime(states[i - 1], actions[i - 1], states[i]);
    }
  }

  /** Every poll the scheduler thread begins is counted once: as polled, as an error or as a gate that could not be
      had in time, unless it is still going on; late returns are further misses; and only a full open queue counts
      as full. */
  lemma PollsAreCounted(states: seq<State>, actions: seq<Action>)
    requires Run(states, actions)
    ensures forall i | 0 <= i < |states| ::
              && CountersFit(states, actions, i)
              && Times(states, actions, i, HandedOver) + Times(states, actions, i, Threw)
                 + Times(states, actions, i, TimedOut) + One(InPoll(states[i].polls.poller))
                 == Times(states, actions, i, Picked)
  {
    forall i | 0 <= i < |states|
      ensures CountersFit(states, actions, i)
      ensures Times(states, actions, i, HandedOver) + Times(states, actions, i, Threw)
              + Times(states, actions, i, TimedOut) + One(InPoll(states[i].polls.poller))
              == Times(states, actions, i, Picked)
    {
      CountersRun(states, actions, i);
      PicksRun(states, actions, i);
    }
  }

  // ----- until when the queue is open -----

  ghost predicate ClosedIsPast(s: State) {
    s.data.raw.closed ==> Core(CloseRawQueue) in Past(s.life.phase)
  }

  lemma {:induction false} DataLeavesOpen(s: P.State, a: P.Action, s': P.State)
    requires P.Step(s, a, s') && a != P.Shut
    ensures s'.raw.closed == s.raw.closed
  {}

  lemma {:induction false} PastKept(s: State, a: LifeAction, s': State, op: Op)
    requires LifeStep(s, a, s') && PhaseInv(s.up, s.life.phase) && op in Past(s.life.phase)
    ensures op in Past(s'.life.phase)
  {
    if a.CloseNext? {
      var script, j := s.life.phase.script, s.life.phase.j;
      assert script[..j + 1] == script[..j] + [script[j]];
    }
  }

  lemma {:induction false} CloseIsPast(s: State, a: LifeAction, s': State)
    requires LifeStep(s, a, s') && PhaseInv(s.up, s.life.phase) && s'.data.raw.closed && !s.data.raw.closed
    ensures Core(CloseRawQueue) in Past(s'.life.phase)
  {
    var script, j := s.life.phase.script, s.life.phase.j;
    assert script[..j + 1][j] == script[j];
  }

  lemma {:induction false} ClosedIsPastStep(s: State, a: Action, s': State)
    requires Step(s, a, s') && PhaseInv(s.up, s.life.phase) && ClosedIsPast(s)
    ensures ClosedIsPast(s')
  {
    if a.Life? && s'.data.raw.closed {
      if s.data.raw.closed {
        PastKept(s, a.life, s', Core(CloseRawQueue));
      } else {
        CloseIsPast(s, a.life, s');
      }
    }
  }

  lemma {:induction false} RunClosedIsPast(states: seq<State>, actions: seq<Action>, i: nat)
    requires Run(states, actions) && i < |states|
    ensures ClosedIsPast(states[i])
  {
    if i > 0 {
      RunClosedIsPast(states, actions, i - 1);
      RunInv(states, actions, i - 1);
      assert StepAt(states, actions, i - 1);
      ClosedIsPastStep(states[i - 1], actions[i - 1], states[i]);
    }
  }

  /** The raw queue is open until the stop() of every driver and every source that is stopped at all has returned:
      whatever a driver delivers while it is being stopped can still be accepted. */
  lemma QueueOpenUntilDriversStopped(states: seq<State>, actions: seq<Action>, i: nat)
    requires Run(states, actions) && i < |states| && states[i].data.raw.closed
    ensures Shutting(states[i].life.phase)
    ensures var p := PlanOf(states[i].shape, states[i].life.phase.cause);
            && (forall d | d in p.drivers :: Plugin(Stop, Driver, d) in Past(states[i].life.phase))
            && (forall n | 0 <= n < p.sources :: Plugin(Stop, Source, n) in Past(states[i].life.phase))
  {
    RunInv(states, actions, i);
    RunClosedIsPast(states, actions, i);
    var phase := states[i].life.phase;
    var p := PlanOf(states[i].shape, phase.cause);
    var m :| 0 <= m < |Past(phase)| && Past(phase)[m] == Core(CloseRawQueue);
    ShutdownOrder(p, m);
    forall d | d in p.drivers
      ensures Plugin(Stop, Driver, d) in Past(phase)
    {
      assert StoppedBefore(p, m, Driver, d);
      var k :| 0 <= k < m && DownScript(p)[k] == Plugin(Stop, Driver, d);
      assert Past(phase)[k] == DownScript(p)[k];
    }
    forall n | 0 <= n < p.sources
      ensures Plugin(Stop, Source, n) in Past(phase)
    {
      assert StoppedBefore(p, m, Source, n);
      var k :| 0 <= k < m && DownScript(p)[k] == Plugin(Stop, Source, n);
      assert Past(phase)[k] == DownScript(p)[k];
    }
  }
}
