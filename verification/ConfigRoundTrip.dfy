/** The configurations the parser can return are exactly the well-formed ones: every accepted document yields a
    well-formed configuration, and every well-formed configuration has a document that yields it, field by field. */
module ConfigRoundTrip {
  import opened Options
  import opened Config

  // ----- what every accepted configuration satisfies -----

  predicate GoodPoints(points: seq<Point>) {
    points != [] && DistinctNames(points) && forall i | 0 <= i < |points| :: points[i].name != "" && InRange(points[i])
  }

  predicate GoodSpec(s: Spec) {
    s.kind != "" && s.settings.Obj?
  }

  predicate GoodDevice(d: Device) {
    d.id != "" && GoodSpec(d.driver) && GoodPoints(d.points)
  }

  ghost predicate GoodGroup(g: Group, devices: seq<Device>) {
    && g.id != "" && g.deviceId != ""
    && 0 < g.interval <= MAX_MILLISECONDS && 0 < g.timeout <= MAX_MILLISECONDS
    && g.points != [] && (forall i | 0 <= i < |g.points| :: g.points[i] != "")
    && (forall i, j | 0 <= i < j < |g.points| :: g.points[i] != g.points[j])
    && Refers(g, devices)
  }

  predicate GoodPlugins(plugins: seq<Plugin>) {
    DistinctPlugins(plugins) && forall i | 0 <= i < |plugins| :: plugins[i].id != "" && GoodSpec(plugins[i].spec)
  }

  predicate GoodCapacities(c: Capacities) {
    && 0 < c.raw <= MAX_SIZE && 0 < c.control <= MAX_SIZE
    && (c.runDuration.Some? ==> 0 < c.runDuration.value <= MAX_MILLISECONDS)
  }

  ghost predicate WellFormed(c: Application) {
    && GoodCapacities(c.capacities)
    && c.devices != [] && DistinctDevices(c.devices) && (forall i | 0 <= i < |c.devices| :: GoodDevice(c.devices[i]))
    && DistinctGroups(c.groups) && (forall i | 0 <= i < |c.groups| :: GoodGroup(c.groups[i], c.devices))
    && GoodPlugins(c.processors) && GoodPlugins(c.publishers) && GoodPlugins(c.sources)
  }

  // ----- a document for a configuration -----

  function Strings(m: map<string, string>): Json {
    Obj(map k | k in m :: Str(m[k]))
  }

  function OptionalNumber(x: Option<real>): Json {
    if x.Some? then Float(x.value) else Null
  }

  /** An absent path is a null. */
  function Path(path: string): Json {
    if path == "" then Null else Str(path)
  }

  function KindName(k: ValueType): string {
    match k
    case Integer => "integer"
    case Double => "double"
    case Boolean => "boolean"
    case String => "string"
    case ByteArray => "bytes"
  }

  function WritePoint(p: Point): Json {
    Obj(map["name" := Str(p.name), "type" := Str(KindName(p.kind)), "unit" := Str(p.unit),
            "address" := Strings(p.address),
            "scale" := Float(p.scale), "offset" := Float(p.offset),
            "minimum" := OptionalNumber(p.minimum), "maximum" := OptionalNumber(p.maximum)])
  }

  function WriteDevice(d: Device): Json {
    Obj(map["id" := Str(d.id), "driver" := Str(d.driver.kind), "driver_config" := d.driver.settings,
            "library" := Path(d.driver.library), "connection" := Strings(d.connection),
            "points" := Arr(seq(|d.points|, i requires 0 <= i < |d.points| => WritePoint(d.points[i])))])
  }

  function WriteGroup(g: Group): Json {
    Obj(map["id" := Str(g.id), "device_id" := Str(g.deviceId), "interval_ms" := Int(g.interval),
            "timeout_ms" := Int(g.timeout),
            "points" := Arr(seq(|g.points|, i requires 0 <= i < |g.points| => Str(g.points[i])))])
  }

  function WritePlugin(p: Plugin): Json {
    Obj(map["id" := Str(p.id), "type" := Str(p.spec.kind), "enabled" := Bool(p.enabled), "config" := p.spec.settings,
            "library" := Path(p.spec.library)])
  }

  function WritePlugins(plugins: seq<Plugin>): Json {
    Arr(seq(|plugins|, i requires 0 <= i < |plugins| => WritePlugin(plugins[i])))
  }

  function WriteRuntime(c: Capacities): Json {
    Obj(map["run_duration_ms" := if c.runDuration.Some? then Int(c.runDuration.value) else Null,
            "raw_queue_capacity" := Int(c.raw), "control_queue_capacity" := Int(c.control)])
  }

  function Document(c: Application): Json {
    Obj(map["runtime" := WriteRuntime(c.capacities),
            "devices" := Arr(seq(|c.devices|, i requires 0 <= i < |c.devices| => WriteDevice(c.devices[i]))),
            "groups" := Arr(seq(|c.groups|, i requires 0 <= i < |c.groups| => WriteGroup(c.groups[i]))),
            "processors" := WritePlugins(c.processors), "event_publishers" := WritePlugins(c.publishers),
            "device_control_sources" := WritePlugins(c.sources)])
  }

  // ----- reading it back -----

  lemma {:induction false} StringsBack(m: map<string, string>)
    ensures StringMap(Strings(m)) == Ok(m)
  {
    assert (map k | k in Strings(m).members :: Strings(m).members[k].s) == m;
  }

  lemma {:induction false} PointBack(p: Point)
    requires p.name != "" && InRange(p)
    ensures ReadPoint(WritePoint(p)) == Ok(p)
  {
    var j := WritePoint(p);
    StringsBack(p.address);
    assert StringAt(j, "name") == Ok(p.name) && KindAt(j) == Ok(p.kind) && StringAt(j, "unit", true) == Ok(p.unit);
    assert Member(j, "address") == Ok(Strings(p.address));
    assert NumberAt(j, "scale") == Ok(p.scale) && NumberAt(j, "offset") == Ok(p.offset);
    assert OptionalNumberAt(j, "minimum") == Ok(p.minimum) && OptionalNumberAt(j, "maximum") == Ok(p.maximum);
  }

  lemma {:induction false} DeviceBack(d: Device)
    requires GoodDevice(d)
    ensures DeviceIs(WriteDevice(d), d)
  {
    var j := WriteDevice(d);
    var items := j.members["points"].items;
    StringsBack(d.connection);
    assert StringAt(j, "id") == Ok(d.id) && StringAt(j, "driver") == Ok(d.driver.kind);
    assert ObjectAt(j, "driver_config") == Ok(d.driver.settings) && PathAt(j, "library") == Ok(d.driver.library);
    assert Member(j, "connection") == Ok(Strings(d.connection)) && ArrayAt(j, "points") == Ok(items);
    forall i | 0 <= i < |items|
      ensures ReadPoint(items[i]) == Ok(d.points[i])
    {
      PointBack(d.points[i]);
    }
  }

  lemma {:induction false} GroupBack(g: Group, devices: seq<Device>)
    requires GoodGroup(g, devices)
    ensures GroupIs(WriteGroup(g), g, devices)
  {
    var j := WriteGroup(g);
    assert StringAt(j, "id") == Ok(g.id) && StringAt(j, "device_id") == Ok(g.deviceId);
    assert PositiveAt(j, "interval_ms", MAX_MILLISECONDS) == Ok(g.interval)
        && PositiveAt(j, "timeout_ms", MAX_MILLISECONDS) == Ok(g.timeout);
    assert Member(j, "points").Ok?;
  }

  lemma {:induction false} PluginBack(p: Plugin)
    requires p.id != "" && GoodSpec(p.spec)
    ensures ReadPlugin(WritePlugin(p)) == Ok(p)
  {
    var j := WritePlugin(p);
    assert StringAt(j, "id") == Ok(p.id) && StringAt(j, "type") == Ok(p.spec.kind) && EnabledAt(j) == Ok(p.enabled);
    assert ObjectAt(j, "config") == Ok(p.spec.settings) && PathAt(j, "library") == Ok(p.spec.library);
  }

  lemma {:induction false} PluginsBack(root: Json, key: string, optional: bool, plugins: seq<Plugin>)
    requires root.Obj? && key in root.members && root.members[key] == WritePlugins(plugins) && GoodPlugins(plugins)
    ensures PluginsAre(root, key, optional, plugins)
  {
    forall i | 0 <= i < |plugins|
      ensures ReadPlugin(WritePlugins(plugins).items[i]) == Ok(plugins[i])
    {
      PluginBack(plugins[i]);
    }
  }

  lemma {:induction false} CapacitiesBack(root: Json, c: Capacities)
    requires root.Obj? && "runtime" in root.members && root.members["runtime"] == WriteRuntime(c) && GoodCapacities(c)
    ensures ReadCapacities(root) == Ok(c)
  {
    var runtime := WriteRuntime(c);
    assert PositiveAt(runtime, "raw_queue_capacity", MAX_SIZE) == Ok(c.raw);
    assert PositiveAt(runtime, "control_queue_capacity", MAX_SIZE) == Ok(c.control);
    assert c.runDuration.Some? ==> PositiveAt(runtime, "run_duration_ms", MAX_MILLISECONDS) == Ok(c.runDuration.value);
  }

  lemma {:induction false} DevicesBack(devices: seq<Device>)
    requires devices != [] && DistinctDevices(devices) && forall i | 0 <= i < |devices| :: GoodDevice(devices[i])
    ensures DevicesAre(seq(|devices|, i requires 0 <= i < |devices| => WriteDevice(devices[i])), devices)
  {
    forall i | 0 <= i < |devices|
      ensures DeviceIs(WriteDevice(devices[i]), devices[i])
    {
      DeviceBack(devices[i]);
    }
  }

  lemma {:induction false} GroupsBack(groups: seq<Group>, devices: seq<Device>)
    requires DistinctGroups(groups) && forall i | 0 <= i < |groups| :: GoodGroup(groups[i], devices)
    ensures GroupsAre(seq(|groups|, i requires 0 <= i < |groups| => WriteGroup(groups[i])), groups, devices)
  {
    forall i | 0 <= i < |groups|
      ensures GroupIs(WriteGroup(groups[i]), groups[i], devices)
    {
      GroupBack(groups[i], devices);
    }
  }

  /** The parser turns the document of a well-formed configuration into that configuration. */
  lemma {:induction false} DocumentBack(c: Application)
    requires WellFormed(c)
    ensures ConfigIs(Document(c), c)
  {
    var root := Document(c);
    CapacitiesBack(root, c.capacities);
    DevicesBack(c.devices);
    GroupsBack(c.groups, c.devices);
    PluginsBack(root, "processors", false, c.processors);
    PluginsBack(root, "event_publishers", false, c.publishers);
    PluginsBack(root, "device_control_sources", true, c.sources);
  }

  // ----- only well-formed configurations -----

  lemma {:induction false} DeviceIsGood(j: Json, d: Device)
    requires DeviceIs(j, d)
    ensures GoodDevice(d)
  {
    var items := ReadDevice(j).value.1;
    assert forall i | 0 <= i < |d.points| :: ReadPoint(items[i]).Ok?;
  }

  lemma {:induction false} GroupIsGood(j: Json, g: Group, devices: seq<Device>)
    requires GroupIs(j, g, devices)
    ensures GoodGroup(g, devices)
  {
    var v := ReadGroup(j).value.1;
    assert forall i | 0 <= i < |g.points| :: StringValue(v.items[i], false).Ok?;
  }

  lemma {:induction false} PluginsAreGood(root: Json, key: string, optional: bool, plugins: seq<Plugin>)
    requires root.Obj? && PluginsAre(root, key, optional, plugins)
    ensures GoodPlugins(plugins)
  {
    if plugins != [] {
      var items := ArrayAt(root, key).value;
      assert forall i | 0 <= i < |plugins| :: ReadPlugin(items[i]).Ok?;
    }
  }

  lemma {:induction false} AcceptedIsWellFormed(root: Json, c: Application)
    requires ConfigIs(root, c)
    ensures WellFormed(c)
  {
    var devices, groups := ArrayAt(root, "devices").value, ArrayAt(root, "groups").value;
    forall i | 0 <= i < |c.devices|
      ensures GoodDevice(c.devices[i])
    {
      DeviceIsGood(devices[i], c.devices[i]);
    }
    forall i | 0 <= i < |c.groups|
      ensures GoodGroup(c.groups[i], c.devices)
    {
      GroupIsGood(groups[i], c.groups[i], c.devices);
    }
    PluginsAreGood(root, "processors", false, c.processors);
    PluginsAreGood(root, "event_publishers", false, c.publishers);
    PluginsAreGood(root, "device_control_sources", true, c.sources);
  }

  /** Some document is parsed to this configuration if and only if it is well-formed. */
  lemma {:induction false} ParsedIffWellFormed(c: Application)
    ensures (exists root :: ConfigIs(root, c)) <==> WellFormed(c)
  {
    if WellFormed(c) {
      DocumentBack(c);
    }
    if root :| ConfigIs(root, c) {
      AcceptedIsWellFormed(root, c);
    }
  }
}
