/** What a document must hold, field by field, for each value the parser can read from it, defaults and alternative
    spellings included. Each reader accepts exactly these documents and nothing else. */
module ConfigDocuments {
  import opened Options
  import opened Config

  // ----- one field -----

  predicate Holds(j: Json, key: string, v: Json) {
    j.Obj? && key in j.members && j.members[key] == v
  }

  predicate Absent(j: Json, key: string) {
    j.Obj? && (key !in j.members || j.members[key] == Null)
  }

  /** Integers and decimals are both numbers. */
  predicate Writes(v: Json, x: real) {
    v == Float(x) || (v.Int? && v.n as real == x)
  }

  predicate HoldsNumber(j: Json, key: string, x: real) {
    j.Obj? && key in j.members && Writes(j.members[key], x)
  }

  predicate HoldsOptional(j: Json, key: string, x: Option<real>) {
    match x
    case None => Absent(j, key)
    case Some(y) => HoldsNumber(j, key, y)
  }

  predicate HoldsTexts(j: Json, key: string, m: map<string, string>) {
    && j.Obj? && key in j.members && j.members[key].Obj? && j.members[key].members.Keys == m.Keys
    && forall k | k in m :: j.members[key].members[k] == Str(m[k])
  }

  /** A library is a non-empty path, or absent, or null. */
  predicate HoldsLibrary(j: Json, path: string) {
    if path == "" then Absent(j, "library") else Holds(j, "library", Str(path))
  }

  predicate HoldsObject(j: Json, key: string, v: Json) {
    Holds(j, key, v) && v.Obj?
  }

  // ----- what describes what -----

  predicate DescribesPoint(j: Json, p: Point) {
    && Holds(j, "name", Str(p.name)) && p.name != "" && Holds(j, "unit", Str(p.unit))
    && (match p.kind
        case Integer => Holds(j, "type", Str("integer"))
        case Double => Holds(j, "type", Str("double"))
        case Boolean => Holds(j, "type", Str("boolean"))
        case String => Holds(j, "type", Str("string"))
        case ByteArray => Holds(j, "type", Str("bytes")) || Holds(j, "type", Str("byte_array")))
    && HoldsTexts(j, "address", p.address)
    && HoldsNumber(j, "scale", p.scale) && HoldsNumber(j, "offset", p.offset)
    && HoldsOptional(j, "minimum", p.minimum) && HoldsOptional(j, "maximum", p.maximum)
    && (p.minimum.Some? && p.maximum.Some? ==> p.minimum.value <= p.maximum.value)
  }

  lemma {:induction false} TextsRead(j: Json, key: string, m: map<string, string>)
    ensures HoldsTexts(j, key, m) <==> Member(j, key).Ok? && StringMap(Member(j, key).value) == Ok(m)
  {
    if HoldsTexts(j, key, m) {
      var v := j.members[key];
      assert (map k | k in v.members :: v.members[k].s) == m;
    }
  }

  lemma {:induction false} PointRead(j: Json, p: Point)
    ensures ReadPoint(j) == Ok(p) <==> DescribesPoint(j, p)
  {
    TextsRead(j, "address", p.address);
  }

  /** At least one point, no name twice. */
  ghost predicate DescribesPoints(items: seq<Json>, points: seq<Point>) {
    && |points| == |items| && points != []
    && (forall i | 0 <= i < |items| :: DescribesPoint(items[i], points[i]))
    && forall i, k | 0 <= i < k < |points| :: points[i].name != points[k].name
  }

  /** All of a device but its points. */
  predicate DescribesHeader(j: Json, d: Device) {
    && Holds(j, "id", Str(d.id)) && d.id != ""
    && Holds(j, "driver", Str(d.driver.kind)) && d.driver.kind != ""
    && HoldsObject(j, "driver_config", d.driver.settings) && HoldsLibrary(j, d.driver.library)
    && HoldsTexts(j, "connection", d.connection)
  }

  ghost predicate DescribesDevice(j: Json, d: Device) {
    && DescribesHeader(j, d) && "points" in j.members && j.members["points"].Arr?
    && DescribesPoints(j.members["points"].items, d.points)
  }

  lemma {:induction false} LibraryRead(j: Json, path: string)
    requires j.Obj?
    ensures PathAt(j, "library") == Ok(path) <==> HoldsLibrary(j, path)
  {}

  lemma {:induction false} HeaderRead(j: Json, d: Device, items: seq<Json>)
    ensures ReadDevice(j) == Ok((d.(points := []), items)) <==> DescribesHeader(j, d) && Holds(j, "points", Arr(items))
  {
    TextsRead(j, "connection", d.connection);
    if j.Obj? {
      LibraryRead(j, d.driver.library);
    }
  }

  lemma {:induction false} PointsRead(items: seq<Json>, points: seq<Point>)
    ensures PointsAre(items, points) <==> DescribesPoints(items, points)
  {
    forall i | 0 <= i < |items| && i < |points|
      ensures ReadPoint(items[i]) == Ok(points[i]) <==> DescribesPoint(items[i], points[i])
    {
      PointRead(items[i], points[i]);
    }
  }

  lemma {:induction false} DeviceRead(j: Json, d: Device)
    ensures DeviceIs(j, d) <==> DescribesDevice(j, d)
  {
    if j.Obj? && "points" in j.members && j.members["points"].Arr? {
      HeaderRead(j, d, j.members["points"].items);
      PointsRead(j.members["points"].items, d.points);
    }
  }

  ghost predicate DescribesGroup(j: Json, g: Group, devices: seq<Device>) {
    && Holds(j, "id", Str(g.id)) && g.id != "" && Holds(j, "device_id", Str(g.deviceId)) && g.deviceId != ""
    && Holds(j, "interval_ms", Int(g.interval)) && 0 < g.interval <= 0x7FFF_FFFF_FFFF_FFFF
    && Holds(j, "timeout_ms", Int(g.timeout)) && 0 < g.timeout <= 0x7FFF_FFFF_FFFF_FFFF
    && "points" in j.members && j.members["points"].Arr? && |j.members["points"].items| == |g.points| && g.points != []
    && (forall i | 0 <= i < |g.points| :: j.members["points"].items[i] == Str(g.points[i]) && g.points[i] != "")
    && (forall i, k | 0 <= i < k < |g.points| :: g.points[i] != g.points[k])
    && exists k :: 0 <= k < |devices| && devices[k].id == g.deviceId
                   && forall i | 0 <= i < |g.points| :: HasPoint(devices[k], g.points[i])
  }

  ghost predicate HasPoint(d: Device, name: string) {
    exists i :: 0 <= i < |d.points| && d.points[i].name == name
  }

  lemma {:induction false} GroupRead(j: Json, g: Group, devices: seq<Device>)
    ensures GroupIs(j, g, devices) <==> DescribesGroup(j, g, devices)
  {}

  predicate DescribesPlugin(j: Json, p: Plugin) {
    && Holds(j, "id", Str(p.id)) && p.id != "" && Holds(j, "type", Str(p.spec.kind)) && p.spec.kind != ""
    && HoldsObject(j, "config", p.spec.settings) && HoldsLibrary(j, p.spec.library)
    && (Holds(j, "enabled", Bool(p.enabled)) || ("enabled" !in j.members && p.enabled))
  }

  lemma {:induction false} PluginRead(j: Json, p: Plugin)
    ensures ReadPlugin(j) == Ok(p) <==> DescribesPlugin(j, p)
  {
    if j.Obj? {
      LibraryRead(j, p.spec.library);
    }
  }

  /** A list of plugins with distinct ids; the control sources may be left out. */
  ghost predicate DescribesPlugins(root: Json, key: string, optional: bool, plugins: seq<Plugin>) {
    && root.Obj?
    && if key !in root.members then optional && plugins == []
       else
         && root.members[key].Arr? && |root.members[key].items| == |plugins|
         && (forall i | 0 <= i < |plugins| :: DescribesPlugin(root.members[key].items[i], plugins[i]))
         && forall i, k | 0 <= i < k < |plugins| :: plugins[i].id != plugins[k].id
  }

  lemma {:induction false} PluginsRead(root: Json, key: string, optional: bool, plugins: seq<Plugin>)
    requires root.Obj?
    ensures PluginsAre(root, key, optional, plugins) <==> DescribesPlugins(root, key, optional, plugins)
  {
    if key in root.members && root.members[key].Arr? {
      var items := root.members[key].items;
      forall i | 0 <= i < |items| && i < |plugins|
        ensures ReadPlugin(items[i]) == Ok(plugins[i]) <==> DescribesPlugin(items[i], plugins[i])
      {
        PluginRead(items[i], plugins[i]);
      }
    }
  }

  /** The control queue holds 64 requests unless the document says otherwise; the run may be unlimited. */
  predicate DescribesRuntime(j: Json, c: Capacities) {
    && Holds(j, "raw_queue_capacity", Int(c.raw)) && 0 < c.raw <= 0xFFFF_FFFF_FFFF_FFFF
    && (Holds(j, "control_queue_capacity", Int(c.control))
        || ("control_queue_capacity" !in j.members && c.control == 64))
    && 0 < c.control <= 0xFFFF_FFFF_FFFF_FFFF
    && match c.runDuration
       case None => Absent(j, "run_duration_ms")
       case Some(d) => Holds(j, "run_duration_ms", Int(d)) && 0 < d <= 0x7FFF_FFFF_FFFF_FFFF
  }

  lemma {:induction false} RuntimeRead(root: Json, c: Capacities)
    ensures ReadCapacities(root) == Ok(c) <==>
            root.Obj? && "runtime" in root.members && DescribesRuntime(root.members["runtime"], c)
  {}

  ghost predicate Describes(root: Json, c: Application) {
    && root.Obj? && "runtime" in root.members && DescribesRuntime(root.members["runtime"], c.capacities)
    && "devices" in root.members && root.members["devices"].Arr?
    && var devices := root.members["devices"].items;
    && |devices| == |c.devices| && c.devices != []
    && (forall i | 0 <= i < |devices| :: DescribesDevice(devices[i], c.devices[i]))
    && (forall i, k | 0 <= i < k < |c.devices| :: c.devices[i].id != c.devices[k].id)
    && "groups" in root.members && root.members["groups"].Arr?
    && var groups := root.members["groups"].items;
    && |groups| == |c.groups|
    && (forall i | 0 <= i < |groups| :: DescribesGroup(groups[i], c.groups[i], c.devices))
    && (forall i, k | 0 <= i < k < |c.groups| :: c.groups[i].id != c.groups[k].id)
    && DescribesPlugins(root, "processors", false, c.processors)
    && DescribesPlugins(root, "event_publishers", false, c.publishers)
    && DescribesPlugins(root, "device_control_sources", true, c.sources)
  }

  lemma {:induction false} DevicesRead(items: seq<Json>, devices: seq<Device>)
    ensures DevicesAre(items, devices) <==>
            && |devices| == |items| && devices != []
            && (forall i | 0 <= i < |items| :: DescribesDevice(items[i], devices[i]))
            && forall i, k | 0 <= i < k < |devices| :: devices[i].id != devices[k].id
  {
    forall i | 0 <= i < |items| && i < |devices|
      ensures DeviceIs(items[i], devices[i]) <==> DescribesDevice(items[i], devices[i])
    {
      DeviceRead(items[i], devices[i]);
    }
  }

  lemma {:induction false} GroupsRead(items: seq<Json>, groups: seq<Group>, devices: seq<Device>)
    ensures GroupsAre(items, groups, devices) <==>
            && |groups| == |items|
            && (forall i | 0 <= i < |items| :: DescribesGroup(items[i], groups[i], devices))
            && forall i, k | 0 <= i < k < |groups| :: groups[i].id != groups[k].id
  {
    forall i | 0 <= i < |items| && i < |groups|
      ensures GroupIs(items[i], groups[i], devices) <==> DescribesGroup(items[i], groups[i], devices)
    {
      GroupRead(items[i], groups[i], devices);
    }
  }

  /** The parser reads a configuration from a document exactly when the document describes it. */
  lemma {:induction false} DocumentRead(root: Json, c: Application)
    ensures ConfigIs(root, c) <==> Describes(root, c)
  {
    if root.Obj? {
      RuntimeRead(root, c.capacities);
      PluginsRead(root, "processors", false, c.processors);
      PluginsRead(root, "event_publishers", false, c.publishers);
      PluginsRead(root, "device_control_sources", true, c.sources);
      if ArrayAt(root, "devices").Ok? {
        DevicesRead(ArrayAt(root, "devices").value, c.devices);
      }
      if ArrayAt(root, "groups").Ok? {
        GroupsRead(ArrayAt(root, "groups").value, c.groups, c.devices);
      }
    }
  }
}
