/** The fixed-interval policy and the engine loop of src/core/scheduler.cpp. Time is an unbounded integer. */
module Scheduler {
  import opened Options

  const UINT64_MAX: nat := 0xFFFF_FFFF_FFFF_FFFF

  datatype Task = Task(groupId: string, interval: int, nextDue: int, stableOrder: nat, skippedCycles: nat)

  /** TimePoint::max() is Idle: there is nothing to wake up for. */
  datatype Wakeup = Idle | WakeAt(time: int)

  datatype Stats = Stats(executed: nat, errors: nat, lateness: nat, duration: nat, skipped: nat)

  function Cap(n: nat): nat {
    if n > UINT64_MAX then UINT64_MAX else n
  }

  function SaturatingAdd(target: nat, value: nat): (r: nat)
    requires target <= UINT64_MAX
    ensures r == Cap(target + value)
  {
    if value > UINT64_MAX - target then UINT64_MAX else target + value
  }

  function Nonnegative(duration: int): nat {
    if duration > 0 then duration else 0
  }

  // ----- selection -----

  ghost predicate Due(task: Task, now: int) {
    task.nextDue <= now
  }

  ghost predicate Before(a: Task, b: Task) {
    a.nextDue < b.nextDue || (a.nextDue == b.nextDue && a.stableOrder < b.stableOrder)
  }

  /** The earliest due task: by due time, then stable order, then position. */
  ghost predicate Selected(tasks: seq<Task>, now: int, i: nat) {
    && i < |tasks| && Due(tasks[i], now)
    && (forall j | 0 <= j < |tasks| && Due(tasks[j], now) :: !Before(tasks[j], tasks[i]))
    && (forall j | 0 <= j < i && Due(tasks[j], now) :: Before(tasks[i], tasks[j]))
  }

  ghost predicate NoneDue(tasks: seq<Task>, now: int) {
    forall j | 0 <= j < |tasks| :: !Due(tasks[j], now)
  }

  ghost predicate IsWakeup(tasks: seq<Task>, w: Wakeup) {
    match w
    case Idle => tasks == []
    case WakeAt(time) =>
      && (exists i | 0 <= i < |tasks| :: tasks[i].nextDue == time)
      && (forall i | 0 <= i < |tasks| :: time <= tasks[i].nextDue)
  }

  /** The loop never sleeps past due work: nothing is due exactly when the wake-up lies in the future. */
  lemma SleepsOnlyWhenIdle(tasks: seq<Task>, now: int, w: Wakeup)
    requires IsWakeup(tasks, w)
    ensures NoneDue(tasks, now) <==> w == Idle || now < w.time
  {}

  // ----- catching up -----

  /** How many intervals on_complete moves a task: one, and one more for every missed cycle. */
  ghost function Cycles(due: int, interval: int, finished: int): (k: nat)
    requires 0 < interval
    ensures 1 <= k
    decreases finished - due
  {
    if finished < due + interval then 1 else 1 + Cycles(due + interval, interval, finished)
  }

  /** The task moves to the least later point of its grid that lies strictly after `finished`. */
  lemma {:induction false} LeastLaterGridPoint(due: int, interval: int, finished: int, k: nat)
    requires 0 < interval
    ensures finished < due + Cycles(due, interval, finished) * interval
    ensures 1 <= k < Cycles(due, interval, finished) ==> due + k * interval <= finished
    decreases finished - due
  {
    if due + interval <= finished {
      LeastLaterGridPoint(due + interval, interval, finished, if k == 0 then 0 else k - 1);
      var c := Cycles(due + interval, interval, finished);
      assert (1 + c) * interval == interval + c * interval;
      assert 1 <= k ==> k * interval == interval + (k - 1) * interval;
    }
  }

  ghost function Completed(task: Task, finished: int): Task
    requires 0 < task.interval
  {
    var k := Cycles(task.nextDue, task.interval, finished);
    task.(nextDue := task.nextDue + k * task.interval, skippedCycles := Cap(task.skippedCycles + (k - 1)))
  }

  predicate Positive(tasks: seq<Task>) {
    forall i | 0 <= i < |tasks| :: 0 < tasks[i].interval && tasks[i].skippedCycles <= UINT64_MAX
  }

  predicate DistinctIds(tasks: seq<Task>) {
    forall i, j | 0 <= i < j < |tasks| :: tasks[i].groupId != tasks[j].groupId
  }

  /** What the policy's constructor accepts; it throws on anything else. */
  predicate Schedulable(tasks: seq<Task>) {
    && (forall i | 0 <= i < |tasks| :: tasks[i].groupId != "" && 0 < tasks[i].interval)
    && DistinctIds(tasks)
  }

  /** The checks of the policy's constructor. */
  method Validate(tasks: seq<Task>) returns (ok: bool)
    ensures ok <==> Schedulable(tasks)
  {
    var ids := {};
    for i := 0 to |tasks|
      invariant Schedulable(tasks[..i]) && ids == set j | 0 <= j < i :: tasks[j].groupId
    {
      if tasks[i].groupId == "" || tasks[i].interval <= 0 {
        return false;
      }
      if tasks[i].groupId in ids {
        var j :| 0 <= j < i && tasks[j].groupId == tasks[i].groupId;
        return false;
      }
      ids := ids + {tasks[i].groupId};
    }
    assert tasks[..|tasks|] == tasks;
    return true;
  }

  class FixedIntervalSequentialPolicy {
    var tasks: seq<Task>

    ghost predicate Valid() reads this {
      Positive(tasks)
    }

    constructor (tasks: seq<Task>)
      requires Schedulable(tasks) && Positive(tasks)
      ensures Valid() && this.tasks == tasks
    {
      this.tasks := tasks;
    }

    method SelectDue(now: int) returns (selected: Option<nat>)
      ensures selected == None <==> NoneDue(tasks, now)
      ensures selected.Some? ==> Selected(tasks, now, selected.value)
      ensures selected.Some? ==> forall j | 0 <= j < |tasks| && tasks[j].nextDue <= now ::
                tasks[selected.value].nextDue < tasks[j].nextDue
                || (tasks[selected.value].nextDue == tasks[j].nextDue
                    && tasks[selected.value].stableOrder <= tasks[j].stableOrder)
    {
      selected := None;
      for i := 0 to |tasks|
        invariant selected == None <==> NoneDue(tasks[..i], now)
        invariant selected.Some? ==> Selected(tasks[..i], now, selected.value)
      {
        assert tasks[..i + 1] == tasks[..i] + [tasks[i]];
        var task := tasks[i];
        if task.nextDue > now {
          continue;
        }
        if selected == None || task.nextDue < tasks[selected.value].nextDue ||
           (task.nextDue == tasks[selected.value].nextDue && task.stableOrder < tasks[selected.value].stableOrder) {
          selected := Some(i);
        }
      }
      assert tasks[..|tasks|] == tasks;
    }

    method NextWakeup() returns (w: Wakeup)
      ensures IsWakeup(tasks, w)
    {
      if tasks == [] {
        return Idle;
      }
      var least := 0;
      for i := 1 to |tasks|
        invariant least < i && forall j | 0 <= j < i :: tasks[least].nextDue <= tasks[j].nextDue
      {
        if tasks[i].nextDue < tasks[least].nextDue ||
           (tasks[i].nextDue == tasks[least].nextDue && tasks[i].stableOrder < tasks[least].stableOrder) {
          least := i;
        }
      }
      return WakeAt(tasks[least].nextDue);
    }

    method OnComplete(i: nat, finished: int)
      requires Valid() && i < |tasks|
      modifies this
      ensures Valid() && tasks == old(tasks)[i := Completed(old(tasks)[i], finished)]
    {
      ghost var start := tasks[i];
      var interval := tasks[i].interval;
      ghost var k := 1;
      tasks := tasks[i := tasks[i].(nextDue := tasks[i].nextDue + interval)];
      while tasks[i].nextDue <= finished
        invariant 1 <= k && interval == start.interval
        invariant |tasks| == |old(tasks)| && tasks == old(tasks)[i := tasks[i]]
        invariant tasks[i] == start.(nextDue := start.nextDue + k * interval,
                                     skippedCycles := Cap(start.skippedCycles + (k - 1)))
        invariant k + Cycles(tasks[i].nextDue - interval, interval, finished) - 1
            == Cycles(start.nextDue, interval, finished)
        decreases finished - tasks[i].nextDue
      {
        assert (k + 1) * interval == k * interval + interval;
        tasks := tasks[i := tasks[i].(nextDue := tasks[i].nextDue + interval)];
        if tasks[i].skippedCycles < UINT64_MAX {
          tasks := tasks[i := tasks[i].(skippedCycles := tasks[i].skippedCycles + 1)];
        }
        k := k + 1;
      }
    }
  }

  // ----- the engine loop -----

  /** What one turn of the loop observes: three clock readings and whether the poll threw. */
  datatype Round = Round(now: int, startedAt: int, finishedAt: int, failed: bool)

  /** The engine, with how often each task was executed and how many of its cycles were truly skipped. */
  datatype Engine = Engine(tasks: seq<Task>, stats: Stats, runs: seq<nat>, skips: seq<nat>)

  ghost predicate WellFormed(e: Engine) {
    && Positive(e.tasks) && |e.runs| == |e.skips| == |e.tasks|
    && e.stats.lateness <= UINT64_MAX && e.stats.duration <= UINT64_MAX && e.stats.skipped <= UINT64_MAX
  }

  ghost function Polled(e: Engine, i: nat, r: Round): Engine
    requires WellFormed(e) && i < |e.tasks|
  {
    var task, c := e.tasks[i], e.stats;
    var done := Completed(task, r.finishedAt);
    Engine(e.tasks[i := done],
           Stats(c.executed + 1,
                 if r.failed then c.errors + 1 else c.errors,
                 SaturatingAdd(c.lateness, Nonnegative(r.startedAt - task.nextDue)),
                 SaturatingAdd(c.duration, Nonnegative(r.finishedAt - r.startedAt)),
                 SaturatingAdd(c.skipped, done.skippedCycles - task.skippedCycles)),
           e.runs[i := e.runs[i] + 1],
           e.skips[i := e.skips[i] + (Cycles(task.nextDue, task.interval, r.finishedAt) - 1)])
  }

  /** One turn: sleep when nothing is due, otherwise poll the selected task. */
  ghost predicate Turn(e: Engine, r: Round, choice: Option<nat>, e': Engine)
    requires WellFormed(e)
  {
    match choice
    case None => NoneDue(e.tasks, r.now) && e' == e
    case Some(i) => Selected(e.tasks, r.now, i) && e' == Polled(e, i, r)
  }

  /** The clock never runs backwards, within a turn or between turns. */
  ghost predicate Monotone(rounds: seq<Round>) {
    && (forall k | 0 <= k < |rounds| :: rounds[k].now <= rounds[k].startedAt <= rounds[k].finishedAt)
    && (forall k | 0 < k < |rounds| :: rounds[k - 1].finishedAt <= rounds[k].now)
  }

  ghost predicate TurnAt(states: seq<Engine>, rounds: seq<Round>, choices: seq<Option<nat>>, k: nat)
    requires k < |rounds| == |choices| && |states| == |rounds| + 1
  {
    WellFormed(states[k]) && Turn(states[k], rounds[k], choices[k], states[k + 1])
  }

  /** A whole run of the loop. */
  ghost predicate IsRun(states: seq<Engine>, rounds: seq<Round>, choices: seq<Option<nat>>) {
    && |rounds| == |choices| && |states| == |rounds| + 1 && WellFormed(states[|rounds|])
    && forall k | 0 <= k < |rounds| :: TurnAt(states, rounds, choices, k)
  }

  lemma {:induction false} EarliestFirst(tasks: seq<Task>, now: int, w: Wakeup)
    requires IsWakeup(tasks, w) && w.WakeAt? && w.time <= now
    ensures !NoneDue(tasks, now)
    ensures forall i: nat :: Selected(tasks, now, i) ==> tasks[i].nextDue == w.time
  {
    var k :| 0 <= k < |tasks| && tasks[k].nextDue == w.time;
    assert Due(tasks[k], now);
    forall i: nat | Selected(tasks, now, i)
      ensures tasks[i].nextDue == w.time
    {
      assert !Before(tasks[k], tasks[i]);
    }
  }

  /** After a turn that sleeps, the next turn polls a task if and only if it begins at or after the wake-up that
      turn slept until, and then it polls one that falls due at that very time. */
  lemma {:induction false} WakesForTheFirst(e: Engine, r: Round, e': Engine, w: Wakeup, r': Round, choice: Option<nat>,
                                            e'': Engine)
    requires WellFormed(e) && Turn(e, r, None, e') && IsWakeup(e.tasks, w) && Turn(e', r', choice, e'')
    ensures choice.Some? <==> w.WakeAt? && w.time <= r'.now
    ensures choice.Some? ==> choice.value < |e.tasks| && e.tasks[choice.value].nextDue == w.time
  {
    SleepsOnlyWhenIdle(e.tasks, r'.now, w);
    if w.WakeAt? && w.time <= r'.now {
      EarliestFirst(e.tasks, r'.now, w);
    }
  }

  lemma TurnKeepsShape(e: Engine, r: Round, choice: Option<nat>, e': Engine)
    requires WellFormed(e) && Turn(e, r, choice, e')
    ensures WellFormed(e') && |e'.tasks| == |e.tasks|
  {}

  class SchedulerEngine {
    const policy: FixedIntervalSequentialPolicy
    var stats: Stats
    ghost var runs: seq<nat>
    ghost var skips: seq<nat>

    ghost function View(): Engine reads this, policy {
      Engine(policy.tasks, stats, runs, skips)
    }

    ghost predicate Valid() reads this, policy {
      WellFormed(View())
    }

    constructor (policy: FixedIntervalSequentialPolicy)
      requires policy.Valid()
      ensures Valid() && this.policy == policy
      ensures View() == Engine(policy.tasks, Stats(0, 0, 0, 0, 0), seq(|policy.tasks|, _ => 0),
                               seq(|policy.tasks|, _ => 0))
    {
      this.policy := policy;
      stats := Stats(0, 0, 0, 0, 0);
      runs, skips := seq(|policy.tasks|, _ => 0), seq(|policy.tasks|, _ => 0);
    }

    /** One turn of the loop body. When no task is due it sleeps, until the wake-up the policy names: that one lies
        in the future and is the time at which the first task falls due, if there is any task. */
    method TakeTurn(r: Round) returns (choice: Option<nat>, sleep: Option<Wakeup>)
      requires Valid()
      modifies this, policy
      ensures Valid() && Turn(old(View()), r, choice, View())
      ensures sleep.Some? <==> choice == None
      ensures sleep.Some? ==> IsWakeup(policy.tasks, sleep.value)
      ensures sleep.Some? && sleep.value.WakeAt? ==> r.now < sleep.value.time
    {
      sleep := None;
      choice := policy.SelectDue(r.now);
      if choice == None {
        var wakeup := policy.NextWakeup();
        SleepsOnlyWhenIdle(policy.tasks, r.now, wakeup);
        sleep := Some(wakeup);
        return;
      }
      var i := choice.value;
      var task := policy.tasks[i];
      ghost var k := Cycles(task.nextDue, task.interval, r.finishedAt);
      var scheduledAt := task.nextDue;
      stats := stats.(executed := stats.executed + 1);
      if r.failed {
        stats := stats.(errors := stats.errors + 1);
      }
      stats := stats.(lateness := SaturatingAdd(stats.lateness, Nonnegative(r.startedAt - scheduledAt)));
      stats := stats.(duration := SaturatingAdd(stats.duration, Nonnegative(r.finishedAt - r.startedAt)));
      var before := task.skippedCycles;
      policy.OnComplete(i, r.finishedAt);
      var after := policy.tasks[i].skippedCycles;
      stats := stats.(skipped := SaturatingAdd(stats.skipped, after - before));
      runs, skips := runs[i := runs[i] + 1], skips[i := skips[i] + (k - 1)];
    }

    /** The loop, over the rounds it goes through before it is stopped. */
    method Run(rounds: seq<Round>) returns (choices: seq<Option<nat>>, ghost states: seq<Engine>)
      requires Valid()
      modifies this, policy
      ensures Valid() && IsRun(states, rounds, choices)
      ensures states[0] == old(View()) && states[|rounds|] == View()
    {
      choices, states := [], [View()];
      for k := 0 to |rounds|
        invariant Valid() && |choices| == k && |states| == k + 1 && states[0] == old(View()) && states[k] == View()
        invariant IsRun(states, rounds[..k], choices)
      {
        ghost var states', rounds', choices' := states, rounds[..k], choices;
        var choice, _ := TakeTurn(rounds[k]);
        choices, states := choices + [choice], states + [View()];
        ghost var played := rounds[..k + 1];
        forall m | 0 <= m < k + 1
          ensures TurnAt(states, played, choices, m)
        {
          assert m < k ==> TurnAt(states', rounds', choices', m);
        }
      }
      assert rounds[..|rounds|] == rounds;
    }
  }

  // ----- the grid, over whole runs -----

  ghost function Sum(ns: seq<nat>): nat {
    if ns == [] then 0 else ns[0] + Sum(ns[1..])
  }

  lemma {:induction false} SumUpdate(ns: seq<nat>, i: nat, n: nat)
    requires i < |ns|
    ensures Sum(ns[i := n]) + ns[i] == Sum(ns) + n && ns[i] <= Sum(ns)
  {
    if i == 0 {
      assert ns[0 := n][1..] == ns[1..];
    } else {
      assert ns[i := n][1..] == ns[1..][i - 1 := n];
      SumUpdate(ns[1..], i - 1, n);
    }
  }

  ghost predicate TasksOnGrid(first: seq<Task>, tasks: seq<Task>, runs: seq<nat>, skips: seq<nat>) {
    && |tasks| == |first| == |runs| == |skips|
    && forall i | 0 <= i < |first| ::
         tasks[i] == first[i].(nextDue := first[i].nextDue + (runs[i] + skips[i]) * first[i].interval,
                               skippedCycles := Cap(skips[i]))
  }

  /** Every task stands on its own grid, as far along as its executions and true skips together, and the
      statistics add up over all tasks despite being capped at two levels. */
  ghost predicate OnGrid(first: seq<Task>, e: Engine) {
    && WellFormed(e) && TasksOnGrid(first, e.tasks, e.runs, e.skips)
    && e.stats.executed == Sum(e.runs)
    && e.stats.skipped == Cap(Sum(e.skips))
  }

  /** Nothing executed or skipped yet, as the runtime creates the engine. */
  ghost predicate Fresh(e: Engine) {
    && WellFormed(e) && e.stats == Stats(0, 0, 0, 0, 0)
    && (forall i | 0 <= i < |e.tasks| :: e.tasks[i].skippedCycles == 0 && e.runs[i] == 0 && e.skips[i] == 0)
  }

  lemma {:induction false} SumZero(ns: seq<nat>)
    requires forall i | 0 <= i < |ns| :: ns[i] == 0
    ensures Sum(ns) == 0
  {
    if ns != [] {
      SumZero(ns[1..]);
    }
  }

  /** One task, from one point of its grid to another. */
  lemma {:induction false} StaysOnGrid(first: Task, task: Task, runs: nat, skips: nat, finished: int)
    requires 0 < first.interval
    requires task == first.(nextDue := first.nextDue + (runs + skips) * first.interval, skippedCycles := Cap(skips))
    ensures var k := Cycles(task.nextDue, task.interval, finished);
            Completed(task, finished)
            == first.(nextDue := first.nextDue + (runs + 1 + (skips + (k - 1))) * first.interval,
                      skippedCycles := Cap(skips + (k - 1)))
  {
    var k := Cycles(task.nextDue, task.interval, finished);
  }

  lemma {:induction false} PollKeepsTasks(first: seq<Task>, e: Engine, i: nat, r: Round)
    requires WellFormed(e) && TasksOnGrid(first, e.tasks, e.runs, e.skips) && i < |e.tasks|
    ensures var e' := Polled(e, i, r); TasksOnGrid(first, e'.tasks, e'.runs, e'.skips)
  {
    StaysOnGrid(first[i], e.tasks[i], e.runs[i], e.skips[i], r.finishedAt);
  }

  lemma {:induction false} PollKeepsStats(e: Engine, i: nat, r: Round)
    requires WellFormed(e) && i < |e.tasks| && e.tasks[i].skippedCycles == Cap(e.skips[i])
    requires e.stats.executed == Sum(e.runs) && e.stats.skipped == Cap(Sum(e.skips))
    ensures var e' := Polled(e, i, r);
            e'.stats.executed == Sum(e'.runs) && e'.stats.skipped == Cap(Sum(e'.skips))
  {
    var k := Cycles(e.tasks[i].nextDue, e.tasks[i].interval, r.finishedAt);
    SumUpdate(e.runs, i, e.runs[i] + 1);
    SumUpdate(e.skips, i, e.skips[i] + (k - 1));
  }

  lemma {:induction false} TurnKeepsGrid(first: seq<Task>, e: Engine, r: Round, choice: Option<nat>, e': Engine)
    requires OnGrid(first, e) && Turn(e, r, choice, e')
    ensures OnGrid(first, e')
  {
    TurnKeepsShape(e, r, choice, e');
    if choice.Some? {
      PollKeepsTasks(first, e, choice.value, r);
      PollKeepsStats(e, choice.value, r);
    }
  }

  /** After every turn of every run, each task's due time is its first due time plus its interval times the
      sum of its executions and its true skips; the engine's own counts are those sums. */
  lemma {:induction false} GridOverRun(states: seq<Engine>, rounds: seq<Round>, choices: seq<Option<nat>>, k: nat)
    requires IsRun(states, rounds, choices) && Fresh(states[0]) && k < |states|
    ensures forall i | 0 <= i <= k :: OnGrid(states[0].tasks, states[i])
  {
    if k == 0 {
      SumZero(states[0].runs);
      SumZero(states[0].skips);
    } else {
      GridOverRun(states, rounds, choices, k - 1);
      assert TurnAt(states, rounds, choices, k - 1);
      TurnKeepsGrid(states[0].tasks, states[k - 1], rounds[k - 1], choices[k - 1], states[k]);
    }
  }

  // ----- the statistics, over whole runs -----

  /** The turns among the first k that polled, and what they add up to. */
  ghost function Failures(rounds: seq<Round>, choices: seq<Option<nat>>, k: nat): nat
    requires k <= |rounds| == |choices|
  {
    if k == 0 then 0
    else Failures(rounds, choices, k - 1) + if choices[k - 1].Some? && rounds[k - 1].failed then 1 else 0
  }

  /** How much later than due the polls began. */
  ghost function TotalLateness(states: seq<Engine>, rounds: seq<Round>, choices: seq<Option<nat>>, k: nat): nat
    requires k <= |rounds| == |choices| && k <= |states|
  {
    if k == 0 then 0
    else
      var late :=
        if choices[k - 1].Some? && choices[k - 1].value < |states[k - 1].tasks|
        then rounds[k - 1].startedAt - states[k - 1].tasks[choices[k - 1].value].nextDue else 0;
      TotalLateness(states, rounds, choices, k - 1) + if late > 0 then late else 0
  }

  /** How long the polls took. */
  ghost function TotalDuration(rounds: seq<Round>, choices: seq<Option<nat>>, k: nat): nat
    requires k <= |rounds| == |choices|
  {
    if k == 0 then 0
    else
      var took := if choices[k - 1].Some? then rounds[k - 1].finishedAt - rounds[k - 1].startedAt else 0;
      TotalDuration(rounds, choices, k - 1) + if took > 0 then took else 0
  }

  /** After every turn of every run the error count is the number of polls that threw, and lateness and duration are
      the sums over all polls, each capped at the greatest 64-bit number. */
  lemma {:induction false} StatsOverRun(states: seq<Engine>, rounds: seq<Round>, choices: seq<Option<nat>>, k: nat)
    requires IsRun(states, rounds, choices) && Fresh(states[0]) && k < |states|
    ensures states[k].stats.errors == Failures(rounds, choices, k)
    ensures states[k].stats.lateness == Cap(TotalLateness(states, rounds, choices, k))
    ensures states[k].stats.duration == Cap(TotalDuration(rounds, choices, k))
  {
    if k > 0 {
      StatsOverRun(states, rounds, choices, k - 1);
      assert TurnAt(states, rounds, choices, k - 1);
    }
  }

  // ----- no starvation -----

  /** The tasks that may still be polled before task t. */
  ghost function Ahead(tasks: seq<Task>, t: nat): set<nat>
    requires t < |tasks|
  {
    set u: nat | u < |tasks| && u != t && tasks[u].nextDue <= tasks[t].nextDue
  }

  lemma {:induction false} Pigeonhole(s: set<nat>, n: nat)
    requires forall x | x in s :: x < n
    ensures |s| <= n
  {
    if n > 0 {
      Pigeonhole(s - {n - 1}, n - 1);
    }
  }

  /** A poll of another task ahead of t moves that task strictly past the current time, so past t. */
  lemma {:induction false} OvertakenOnce(e: Engine, r: Round, c: nat, t: nat, e': Engine)
    requires WellFormed(e) && Turn(e, r, Some(c), e') && t < |e.tasks| && c != t
    requires Due(e.tasks[t], r.now) && r.now <= r.finishedAt
    ensures e'.tasks[t] == e.tasks[t] && c in Ahead(e.tasks, t)
    ensures Ahead(e'.tasks, t) == Ahead(e.tasks, t) - {c}
  {
    LeastLaterGridPoint(e.tasks[c].nextDue, e.tasks[c].interval, r.finishedAt, 0);
  }

  /** Once a task is due when the scheduler selects, it is selected after at most n - 1 other polls, with no
      sleep in between. */
  lemma {:induction false} NoStarvation(states: seq<Engine>, rounds: seq<Round>, choices: seq<Option<nat>>, k: nat,
                                        t: nat)
      returns (j: nat)
    requires IsRun(states, rounds, choices) && Monotone(rounds)
    requires k < |rounds| && t < |states[k].tasks| && Due(states[k].tasks[t], rounds[k].now)
    requires k + |states[k].tasks| <= |rounds|
    ensures k <= j < k + |states[k].tasks| && choices[j] == Some(t)
    ensures forall m | k <= m < j :: choices[m].Some? && choices[m] != Some(t)
  {
    Pigeonhole(Ahead(states[k].tasks, t) + {t}, |states[k].tasks|);
    j := SelectedWithin(states, rounds, choices, k, t);
  }

  lemma {:induction false} SelectedWithin(states: seq<Engine>, rounds: seq<Round>, choices: seq<Option<nat>>, k: nat,
                                          t: nat)
      returns (j: nat)
    requires IsRun(states, rounds, choices) && Monotone(rounds)
    requires k < |rounds| && t < |states[k].tasks| && Due(states[k].tasks[t], rounds[k].now)
    requires k + |Ahead(states[k].tasks, t)| < |rounds|
    ensures k <= j <= k + |Ahead(states[k].tasks, t)| && choices[j] == Some(t)
    ensures forall m | k <= m < j :: choices[m].Some? && choices[m] != Some(t)
    decreases |Ahead(states[k].tasks, t)|
  {
    var e, e' := states[k], states[k + 1];
    assert TurnAt(states, rounds, choices, k);
    assert choices[k] != None;
    j := k;
    if choices[k] != Some(t) {
      TurnKeepsShape(e, rounds[k], choices[k], e');
      OvertakenOnce(e, rounds[k], choices[k].value, t, e');
      j := SelectedWithin(states, rounds, choices, k + 1, t);
    }
  }
}
