/** What is checked after parsing, and why a parsed configuration passes it: the constructors of
    src/core/normalizer.cpp and src/core/scheduler.cpp, validate_and_configure and the lookups of
    src/core/runtime.cpp. */
module Startup {
  import opened Options
  import opened Config
  import opened Acquisition
  import S = Scheduler

  /** A driver or publisher instance; `present` is false for a null pointer. Its configure() does not throw. */
  datatype Driver = Driver(deviceId: string, present: bool, mode: Mode)
  datatype Publisher = Publisher(id: string, present: bool)

  // ----- the normalizer's constructor -----

  predicate PointsFit(points: seq<Point>) {
    (forall i | 0 <= i < |points| :: points[i].name != "" && InRange(points[i])) && DistinctNames(points)
  }

  predicate DevicesFit(devices: seq<Device>) {
    (forall i | 0 <= i < |devices| :: devices[i].id != "" && PointsFit(devices[i].points)) && DistinctDevices(devices)
  }

  /** The table of one device: each point under its name. */
  predicate Indexes(table: map<string, Point>, points: seq<Point>) {
    && (forall i | 0 <= i < |points| :: points[i].name in table && table[points[i].name] == points[i])
    && (forall name | name in table :: exists i :: 0 <= i < |points| && points[i].name == name)
  }

  method BuildTable(points: seq<Point>) returns (ok: bool, table: map<string, Point>)
    ensures ok <==> PointsFit(points)
    ensures ok ==> Indexes(table, points)
  {
    table := map[];
    for i := 0 to |points|
      invariant PointsFit(points[..i]) && Indexes(table, points[..i])
    {
      assert points[..i + 1] == points[..i] + [points[i]];
      if points[i].name == "" || !InRange(points[i]) {
        return false, table;
      }
      if points[i].name in table {
        var k :| 0 <= k < i && points[k].name == points[i].name;
        return false, table;
      }
      table := table[points[i].name := points[i]];
    }
    assert points[..|points|] == points;
    ok := true;
  }

  method BuildNormalizer(devices: seq<Device>) returns (ok: bool, tables: map<string, map<string, Point>>)
    ensures ok <==> DevicesFit(devices)
    ensures ok ==> forall i | 0 <= i < |devices| ::
                     devices[i].id in tables && Indexes(tables[devices[i].id], devices[i].points)
  {
    tables := map[];
    ghost var done: set<string> := {};
    for i := 0 to |devices|
      invariant DevicesFit(devices[..i])
      invariant forall k | 0 <= k < i :: devices[k].id in tables && Indexes(tables[devices[k].id], devices[k].points)
      invariant forall id | id in tables :: exists k :: 0 <= k < i && devices[k].id == id
    {
      if devices[i].id == "" {
        return false, tables;
      }
      if devices[i].id in tables {
        var k :| 0 <= k < i && devices[k].id == devices[i].id;
        return false, tables;
      }
      var ok', table := BuildTable(devices[i].points);
      if !ok' {
        return false, tables;
      }
      tables := tables[devices[i].id := table];
      assert devices[..i + 1] == devices[..i] + [devices[i]];
    }
    assert devices[..|devices|] == devices;
    ok := true;
  }

  // ----- validate_and_configure -----

  predicate KnownDevice(devices: seq<Device>, id: string) {
    exists i :: 0 <= i < |devices| && devices[i].id == id
  }

  predicate DriversFit(drivers: seq<Driver>, devices: seq<Device>) {
    && (forall i | 0 <= i < |drivers| ::
          drivers[i].deviceId != "" && drivers[i].present && KnownDevice(devices, drivers[i].deviceId))
    && (forall i, j | 0 <= i < j < |drivers| :: drivers[i].deviceId != drivers[j].deviceId)
  }

  /** driver_modes_: the mode each driver reported. */
  predicate Modes(modes: map<string, Mode>, drivers: seq<Driver>) {
    && (forall i | 0 <= i < |drivers| :: drivers[i].deviceId in modes && modes[drivers[i].deviceId] == drivers[i].mode)
    && (forall id | id in modes :: exists i :: 0 <= i < |drivers| && drivers[i].deviceId == id)
  }

  method CheckDrivers(drivers: seq<Driver>, devices: seq<Device>) returns (ok: bool, modes: map<string, Mode>)
    ensures ok <==> DriversFit(drivers, devices)
    ensures ok ==> Modes(modes, drivers)
  {
    modes := map[];
    for i := 0 to |drivers|
      invariant DriversFit(drivers[..i], devices) && Modes(modes, drivers[..i])
    {
      if drivers[i].deviceId == "" || !drivers[i].present {
        return false, modes;
      }
      if drivers[i].deviceId in modes {
        var k :| 0 <= k < i && drivers[k].deviceId == drivers[i].deviceId;
        return false, modes;
      }
      if !KnownDevice(devices, drivers[i].deviceId) {
        return false, modes;
      }
      modes := modes[drivers[i].deviceId := drivers[i].mode];
      assert drivers[..i + 1] == drivers[..i] + [drivers[i]];
    }
    assert drivers[..|drivers|] == drivers;
    ok := true;
  }

  predicate GroupsFit(groups: seq<Group>) {
    && (forall i | 0 <= i < |groups| :: groups[i].id != "" && 0 < groups[i].interval && 0 < groups[i].timeout)
    && DistinctGroups(groups)
  }

  predicate Polled(groups: seq<Group>, drivers: seq<Driver>) {
    forall i | 0 <= i < |groups| :: PolledDevice(groups[i].deviceId, drivers)
  }

  predicate PolledDevice(id: string, drivers: seq<Driver>) {
    exists k :: 0 <= k < |drivers| && drivers[k].deviceId == id && drivers[k].mode == Poll
  }

  method CheckGroups(groups: seq<Group>, modes: map<string, Mode>, ghost drivers: seq<Driver>) returns (ok: bool)
    requires Modes(modes, drivers)
    ensures ok <==> GroupsFit(groups) && forall i | 0 <= i < |groups| ::
                      groups[i].deviceId in modes && modes[groups[i].deviceId] == Poll
  {
    var ids := {};
    for i := 0 to |groups|
      invariant GroupsFit(groups[..i]) && ids == GroupIds(groups[..i])
      invariant forall k | 0 <= k < i :: groups[k].deviceId in modes && modes[groups[k].deviceId] == Poll
    {
      if groups[i].id == "" {
        return false;
      }
      if groups[i].id in ids {
        var k :| 0 <= k < i && groups[k].id == groups[i].id;
        return false;
      }
      if groups[i].interval <= 0 || groups[i].timeout <= 0 {
        return false;
      }
      if groups[i].deviceId !in modes || modes[groups[i].deviceId] != Poll {
        return false;
      }
      assert groups[..i + 1] == groups[..i] + [groups[i]];
      GroupIdsGrow(groups[..i], groups[i]);
      ids := ids + {groups[i].id};
    }
    assert groups[..|groups|] == groups;
    ok := true;
  }

  predicate PublishersFit(publishers: seq<Publisher>) {
    && (forall i | 0 <= i < |publishers| :: publishers[i].id != "" && publishers[i].present)
    && (forall i, j | 0 <= i < j < |publishers| :: publishers[i].id != publishers[j].id)
  }

  method CheckPublishers(publishers: seq<Publisher>) returns (ok: bool)
    ensures ok <==> PublishersFit(publishers)
  {
    var ids: set<string> := {};
    for i := 0 to |publishers|
      invariant PublishersFit(publishers[..i])
      invariant forall k | 0 <= k < i :: publishers[k].id in ids
      invariant forall id | id in ids :: exists k :: 0 <= k < i && publishers[k].id == id
    {
      if publishers[i].id == "" || !publishers[i].present {
        return false;
      }
      if publishers[i].id in ids {
        var k :| 0 <= k < i && publishers[k].id == publishers[i].id;
        return false;
      }
      ids := ids + {publishers[i].id};
      assert publishers[..i + 1] == publishers[..i] + [publishers[i]];
    }
    assert publishers[..|publishers|] == publishers;
    ok := true;
  }

  predicate RuntimeFits(c: Application, drivers: seq<Driver>, publishers: seq<Publisher>) {
    && DriversFit(drivers, c.devices) && |drivers| == |c.devices|
    && GroupsFit(c.groups) && Polled(c.groups, drivers)
    && PublishersFit(publishers)
  }

  method ValidateAndConfigure(c: Application, drivers: seq<Driver>, publishers: seq<Publisher>) returns (ok: bool)
    ensures ok <==> RuntimeFits(c, drivers, publishers)
  {
    var modes;
    ok, modes := CheckDrivers(drivers, c.devices);
    if !ok || |modes| != |c.devices| {
      if ok {
        ModesCount(modes, drivers);
      }
      return false;
    }
    ModesCount(modes, drivers);
    assert forall i | 0 <= i < |c.groups| ::
        c.groups[i].deviceId in modes && modes[c.groups[i].deviceId] == Poll
        <==> PolledDevice(c.groups[i].deviceId, drivers);
    ok := CheckGroups(c.groups, modes, drivers);
    if ok {
      ok := CheckPublishers(publishers);
    }
  }

  ghost function DriverIds(drivers: seq<Driver>): set<string> {
    if drivers == [] then {} else DriverIds(drivers[..|drivers| - 1]) + {drivers[|drivers| - 1].deviceId}
  }

  lemma {:induction false} DriverIdsAre(drivers: seq<Driver>, id: string)
    ensures id in DriverIds(drivers) <==> exists i :: 0 <= i < |drivers| && drivers[i].deviceId == id
  {
    if drivers != [] {
      var n := |drivers| - 1;
      DriverIdsAre(drivers[..n], id);
      assert forall i | 0 <= i < n :: drivers[i] == drivers[..n][i];
    }
  }

  lemma {:induction false} IdsCount(drivers: seq<Driver>)
    requires (forall i, j | 0 <= i < j < |drivers| :: drivers[i].deviceId != drivers[j].deviceId)
    ensures |DriverIds(drivers)| == |drivers|
  {
    if drivers != [] {
      IdsCount(drivers[..|drivers| - 1]);
      DriverIdsAre(drivers[..|drivers| - 1], drivers[|drivers| - 1].deviceId);
    }
  }

  /** One entry for each driver: comparing sizes compares the numbers of drivers and devices. */
  lemma {:induction false} ModesCount(modes: map<string, Mode>, drivers: seq<Driver>)
    requires Modes(modes, drivers)
    requires (forall i, j | 0 <= i < j < |drivers| :: drivers[i].deviceId != drivers[j].deviceId)
    ensures |modes| == |drivers|
  {
    IdsCount(drivers);
    forall id
      ensures id in DriverIds(drivers) <==> id in modes
    {
      DriverIdsAre(drivers, id);
    }
    assert modes.Keys == DriverIds(drivers);
  }

  // ----- an accepted configuration -----

  /** One non-null driver for each device, in the order of the configuration. */
  predicate OnePerDevice(devices: seq<Device>, drivers: seq<Driver>) {
    && |drivers| == |devices|
    && forall i | 0 <= i < |drivers| :: drivers[i].deviceId == devices[i].id && drivers[i].present
  }

  function Enabled(plugins: seq<Plugin>): seq<Plugin> {
    if plugins == [] then []
    else Enabled(plugins[..|plugins| - 1])
         + if plugins[|plugins| - 1].enabled then [plugins[|plugins| - 1]] else []
  }

  /** One non-null publisher for each enabled specification, in the order of the configuration. */
  predicate OnePerEnabled(plugins: seq<Plugin>, publishers: seq<Publisher>) {
    && |publishers| == |Enabled(plugins)|
    && forall i | 0 <= i < |publishers| :: publishers[i].id == Enabled(plugins)[i].id && publishers[i].present
  }

  lemma {:induction false} EnabledDistinct(plugins: seq<Plugin>)
    requires DistinctPlugins(plugins) && forall i | 0 <= i < |plugins| :: plugins[i].id != ""
    ensures DistinctPlugins(Enabled(plugins))
    ensures forall p | p in Enabled(plugins) :: p in plugins && p.id != ""
  {
    if plugins != [] {
      var most := plugins[..|plugins| - 1];
      EnabledDistinct(most);
      assert forall i | 0 <= i < |Enabled(most)| :: Enabled(most)[i] in Enabled(most);
    }
  }

  lemma {:induction false} DevicesAreFit(items: seq<Json>, devices: seq<Device>)
    requires DevicesAre(items, devices)
    ensures DevicesFit(devices)
  {
    forall i | 0 <= i < |devices|
      ensures devices[i].id != "" && PointsFit(devices[i].points)
    {
      assert DeviceIs(items[i], devices[i]);
      var read := ReadDevice(items[i]).value.1;
      assert forall k | 0 <= k < |devices[i].points| :: ReadPoint(read[k]).Ok?;
    }
  }

  lemma {:induction false} GroupsAreFit(items: seq<Json>, groups: seq<Group>, devices: seq<Device>)
    requires GroupsAre(items, groups, devices)
    ensures GroupsFit(groups) && forall i | 0 <= i < |groups| :: Refers(groups[i], devices)
  {
    forall i | 0 <= i < |groups|
      ensures groups[i].id != "" && 0 < groups[i].interval && 0 < groups[i].timeout && Refers(groups[i], devices)
    {
      assert GroupIs(items[i], groups[i], devices);
    }
  }

  lemma {:induction false} PublishersAreFit(root: Json, plugins: seq<Plugin>, publishers: seq<Publisher>)
    requires root.Obj? && PluginsAre(root, "event_publishers", false, plugins) && OnePerEnabled(plugins, publishers)
    ensures PublishersFit(publishers)
  {
    var items := ArrayAt(root, "event_publishers").value;
    forall i | 0 <= i < |plugins|
      ensures plugins[i].id != ""
    {
      assert ReadPlugin(items[i]).Ok?;
    }
    EnabledDistinct(plugins);
    forall i | 0 <= i < |publishers|
      ensures publishers[i].id != "" && publishers[i].present
    {
      assert Enabled(plugins)[i] in Enabled(plugins);
    }
  }

  lemma {:induction false} DriversAreFit(devices: seq<Device>, drivers: seq<Driver>)
    requires DevicesFit(devices) && OnePerDevice(devices, drivers)
    ensures DriversFit(drivers, devices)
  {}

  /** The tasks start() makes of the groups. */
  function TasksOf(groups: seq<Group>, start: int): seq<S.Task> {
    seq(|groups|, i requires 0 <= i < |groups| =>
          S.Task(groups[i].id, groups[i].interval, start + groups[i].interval, i, 0))
  }

  /** In every run of the engine that start() creates, each group is first due one interval of its own after the
      start, and stays on that grid; ties go to the group that comes first in the configuration. */
  lemma {:induction false} GroupsOnGrid(groups: seq<Group>, start: int, states: seq<S.Engine>, rounds: seq<S.Round>,
                                        choices: seq<Option<nat>>, k: nat, i: nat)
    requires S.IsRun(states, rounds, choices) && S.Fresh(states[0]) && states[0].tasks == TasksOf(groups, start)
    requires k < |states| && i < |groups|
    ensures |states[k].tasks| == |states[k].runs| == |states[k].skips| == |groups|
    ensures var task := states[k].tasks[i];
            && task.groupId == groups[i].id && task.interval == groups[i].interval && task.stableOrder == i
            && task.nextDue == start + (1 + states[k].runs[i] + states[k].skips[i]) * groups[i].interval
  {
    S.GridOverRun(states, rounds, choices, k);
    assert S.OnGrid(states[0].tasks, states[k]);
    var n := states[k].runs[i] + states[k].skips[i];
    assert (1 + n) * groups[i].interval == groups[i].interval + n * groups[i].interval;
  }

  /** The group is polled from a device whose driver pushes. */
  predicate OwnedByPush(g: Group, drivers: seq<Driver>) {
    exists k :: 0 <= k < |drivers| && drivers[k].deviceId == g.deviceId && drivers[k].mode == Push
  }

  lemma {:induction false} PolledUnlessPush(g: Group, devices: seq<Device>, drivers: seq<Driver>)
    requires Refers(g, devices) && OnePerDevice(devices, drivers) && DistinctDevices(devices)
    ensures PolledDevice(g.deviceId, drivers) <==> !OwnedByPush(g, drivers)
  {
    var k :| 0 <= k < |devices| && devices[k].id == g.deviceId;
    assert drivers[k].deviceId == g.deviceId;
  }

  /** Whatever configuration the parser accepts: both queues, the normalizer and the schedule policy can be built
      from it, and given one non-null instance for each device and each enabled publisher, the runtime's
      own validation rejects it if and only if some group belongs to a device whose driver pushes. */
  lemma {:induction false} AcceptedIsTotal(root: Json, c: Application, drivers: seq<Driver>,
                                           publishers: seq<Publisher>, start: int)
    requires ConfigIs(root, c) && OnePerDevice(c.devices, drivers) && OnePerEnabled(c.publishers, publishers)
    ensures 0 < c.capacities.raw && 0 < c.capacities.control
    ensures DevicesFit(c.devices) && S.Schedulable(TasksOf(c.groups, start))
    ensures !RuntimeFits(c, drivers, publishers)
        <==> exists i :: 0 <= i < |c.groups| && OwnedByPush(c.groups[i], drivers)
  {
    DevicesAreFit(ArrayAt(root, "devices").value, c.devices);
    GroupsAreFit(ArrayAt(root, "groups").value, c.groups, c.devices);
    PublishersAreFit(root, c.publishers, publishers);
    DriversAreFit(c.devices, drivers);
    forall i | 0 <= i < |c.groups|
      ensures PolledDevice(c.groups[i].deviceId, drivers) <==> !OwnedByPush(c.groups[i], drivers)
    {
      PolledUnlessPush(c.groups[i], c.devices, drivers);
    }
  }

  // ----- the lookups of poll_group -----

  /** find_group: the first group of that id, or the number of groups when the original throws. */
  method FindGroup(groups: seq<Group>, id: string) returns (i: nat)
    ensures i <= |groups| && (i < |groups| ==> groups[i].id == id)
    ensures forall k | 0 <= k < i :: groups[k].id != id
  {
    i := 0;
    while i < |groups| && groups[i].id != id
      invariant i <= |groups| && forall k | 0 <= k < i :: groups[k].id != id
    {
      i := i + 1;
    }
  }

  /** find_driver and find_io_gate, which both look for the device's id among the drivers. */
  method FindDriver(drivers: seq<Driver>, id: string) returns (i: nat)
    ensures i <= |drivers| && (i < |drivers| ==> drivers[i].deviceId == id)
    ensures forall k | 0 <= k < i :: drivers[k].deviceId != id
  {
    i := 0;
    while i < |drivers| && drivers[i].deviceId != id
      invariant i <= |drivers| && forall k | 0 <= k < i :: drivers[k].deviceId != id
    {
      i := i + 1;
    }
  }

  /** In a runtime that passed validation every task finds its own group, that group's driver, which polls, and
      so its gate. */
  method Lookup(c: Application, drivers: seq<Driver>, publishers: seq<Publisher>, start: int, task: nat)
    returns (group: nat, driver: nat)
    requires RuntimeFits(c, drivers, publishers)
    requires task < |TasksOf(c.groups, start)|
    ensures group == task && driver < |drivers|
    ensures drivers[driver].deviceId == c.groups[group].deviceId && drivers[driver].mode == Poll
  {
    group := FindGroup(c.groups, TasksOf(c.groups, start)[task].groupId);
    assert PolledDevice(c.groups[group].deviceId, drivers);
    driver := FindDriver(drivers, c.groups[group].deviceId);
  }
}
