/** src/core/config.cpp over JSON values: what the parser accepts, and what it makes of it. A loop of the
    original is a method; each is proved to return exactly the value for which the relation above it holds. */
module Config {
  import opened Options

  /** nlohmann::json after parsing. Float stands for the finite floating-point numbers. */
  datatype Json =
    | Null | Bool(b: bool) | Int(n: int) | Float(x: real) | NotFinite | Str(s: string)
    | Arr(items: seq<Json>) | Obj(members: map<string, Json>)

  datatype Error =
    | NotObject | Missing | NotArray | NotString | NotBoolean | NotNumber
    | IsEmpty | BadSize | BadRange | BadType | Duplicate | Unknown

  datatype Result<+T> = Ok(value: T) | Err(error: Error) {
    predicate IsFailure() { Err? }
    function PropagateFailure<U>(): Result<U> requires Err? { Err(error) }
    function Extract(): T requires Ok? { value }
  }

  datatype ValueType = Integer | Double | Boolean | String | ByteArray

  datatype Point = Point(name: string, kind: ValueType, unit: string, address: map<string, string>,
                         scale: real, offset: real, minimum: Option<real>, maximum: Option<real>)
  datatype Spec = Spec(kind: string, settings: Json, library: string)
  datatype Device = Device(id: string, driver: Spec, connection: map<string, string>, points: seq<Point>)
  datatype Group = Group(id: string, deviceId: string, interval: int, timeout: int, points: seq<string>)
  datatype Plugin = Plugin(id: string, spec: Spec, enabled: bool)
  datatype Capacities = Capacities(raw: int, control: int, runDuration: Option<int>)
  datatype Application = Application(capacities: Capacities, devices: seq<Device>, groups: seq<Group>,
                                     processors: seq<Plugin>, publishers: seq<Plugin>, sources: seq<Plugin>)

  const MAX_SIZE: int := 0xFFFF_FFFF_FFFF_FFFF
  const MAX_MILLISECONDS: int := 0x7FFF_FFFF_FFFF_FFFF
  const DEFAULT_CONTROL_CAPACITY: int := 64

  // ----- one field -----

  function Member(j: Json, key: string): Result<Json> {
    if !j.Obj? then Err(NotObject) else if key !in j.members then Err(Missing) else Ok(j.members[key])
  }

  function ObjectAt(j: Json, key: string): Result<Json> {
    var v :- Member(j, key);
    if v.Obj? then Ok(v) else Err(NotObject)
  }

  function ArrayAt(j: Json, key: string): Result<seq<Json>> {
    var v :- Member(j, key);
    if v.Arr? then Ok(v.items) else Err(NotArray)
  }

  function StringValue(v: Json, allowEmpty: bool): (r: Result<string>)
    ensures r.Ok? && !allowEmpty ==> r.value != ""
  {
    if !v.Str? then Err(NotString) else if !allowEmpty && v.s == "" then Err(IsEmpty) else Ok(v.s)
  }

  function StringAt(j: Json, key: string, allowEmpty: bool := false): (r: Result<string>)
    ensures r.Ok? && !allowEmpty ==> r.value != ""
  {
    var v :- Member(j, key);
    StringValue(v, allowEmpty)
  }

  function PathAt(j: Json, key: string): Result<string>
    requires j.Obj?
  {
    if key !in j.members || j.members[key].Null? then Ok("") else StringValue(j.members[key], false)
  }

  function EnabledAt(j: Json): Result<bool>
    requires j.Obj?
  {
    if "enabled" !in j.members then Ok(true)
    else if j.members["enabled"].Bool? then Ok(j.members["enabled"].b) else Err(NotBoolean)
  }

  function UnsignedAt(j: Json, key: string): (r: Result<int>)
    ensures r.Ok? ==> 0 <= r.value
  {
    var v :- Member(j, key);
    if v.Int? && 0 <= v.n then Ok(v.n) else Err(NotNumber)
  }

  /** size_member and milliseconds_member, always called with `positive`. */
  function PositiveAt(j: Json, key: string, maximum: int): (r: Result<int>)
    ensures r.Ok? ==> 0 < r.value <= maximum
  {
    var n :- UnsignedAt(j, key);
    if n == 0 || n > maximum then Err(BadSize) else Ok(n)
  }

  function NumberValue(v: Json): Result<real> {
    match v
    case Int(n) => Ok(n as real)
    case Float(x) => Ok(x)
    case _ => Err(NotNumber)
  }

  function NumberAt(j: Json, key: string): Result<real> {
    var v :- Member(j, key);
    NumberValue(v)
  }

  function OptionalNumberAt(j: Json, key: string): Result<Option<real>>
    requires j.Obj?
  {
    if key !in j.members || j.members[key].Null? then Ok(None)
    else var x :- NumberValue(j.members[key]); Ok(Some(x))
  }

  function StringMap(v: Json): Result<map<string, string>> {
    if !v.Obj? then Err(NotObject)
    else if exists k | k in v.members :: !v.members[k].Str? then Err(NotString)
    else Ok(map k | k in v.members :: v.members[k].s)
  }

  function KindAt(j: Json): Result<ValueType> {
    var name :- StringAt(j, "type");
    if name == "integer" then Ok(Integer)
    else if name == "double" then Ok(Double)
    else if name == "boolean" then Ok(Boolean)
    else if name == "string" then Ok(String)
    else if name == "bytes" || name == "byte_array" then Ok(ByteArray)
    else Err(BadType)
  }

  predicate InRange(p: Point) {
    p.minimum.Some? && p.maximum.Some? ==> p.minimum.value <= p.maximum.value
  }

  function ReadPoint(j: Json): (r: Result<Point>)
    ensures r.Ok? ==> r.value.name != "" && InRange(r.value)
  {
    if !j.Obj? then Err(NotObject) else
    var name :- StringAt(j, "name");
    var kind :- KindAt(j);
    var unit :- StringAt(j, "unit", true);
    var addressValue :- Member(j, "address");
    var address :- StringMap(addressValue);
    var scale :- NumberAt(j, "scale");
    var offset :- NumberAt(j, "offset");
    var minimum :- OptionalNumberAt(j, "minimum");
    var maximum :- OptionalNumberAt(j, "maximum");
    var p := Point(name, kind, unit, address, scale, offset, minimum, maximum);
    if InRange(p) then Ok(p) else Err(BadRange)
  }

  // ----- devices -----

  ghost predicate PointsAre(items: seq<Json>, points: seq<Point>) {
    && |points| == |items| && points != []
    && (forall i | 0 <= i < |items| :: ReadPoint(items[i]) == Ok(points[i]))
    && DistinctNames(points)
  }

  predicate DistinctNames(points: seq<Point>) {
    forall i, j | 0 <= i < j < |points| :: points[i].name != points[j].name
  }

  function Names(points: seq<Point>): set<string> {
    set i | 0 <= i < |points| :: points[i].name
  }

  lemma {:induction false} NamesGrow(points: seq<Point>, p: Point)
    ensures Names(points + [p]) == Names(points) + {p.name}
  {
    var more := points + [p];
    assert more[|points|] == p;
    assert forall i | 0 <= i < |points| :: more[i] == points[i];
  }

  lemma {:induction false} SameName(items: seq<Json>, k: nat, n: nat)
    requires k < n < |items| && ReadPoint(items[k]).Ok? && ReadPoint(items[n]).Ok?
    requires ReadPoint(items[k]).value.name == ReadPoint(items[n]).value.name
    ensures forall points :: !PointsAre(items, points)
  {}

  lemma {:induction false} SamePoints(items: seq<Json>, a: seq<Point>)
    requires PointsAre(items, a)
    ensures forall b :: PointsAre(items, b) ==> b == a
  {
    forall b | PointsAre(items, b)
      ensures b == a
    {
      assert forall i | 0 <= i < |a| :: Ok(a[i]) == ReadPoint(items[i]) == Ok(b[i]);
    }
  }

  method ParsePoints(items: seq<Json>) returns (r: Result<seq<Point>>)
    ensures forall points :: PointsAre(items, points) <==> r == Ok(points)
  {
    if items == [] {
      return Err(IsEmpty);
    }
    var points: seq<Point> := [];
    var names := {};
    while |points| < |items|
      invariant |points| <= |items| && names == Names(points)
      invariant forall i | 0 <= i < |points| :: ReadPoint(items[i]) == Ok(points[i])
      invariant DistinctNames(points)
      decreases |items| - |points|
    {
      var point := ReadPoint(items[|points|]);
      if point.Err? {
        return Err(point.error);
      }
      if point.value.name in names {
        var k :| 0 <= k < |points| && points[k].name == point.value.name;
        SameName(items, k, |points|);
        return Err(Duplicate);
      }
      NamesGrow(points, point.value);
      names := names + {point.value.name};
      points := points + [point.value];
    }
    SamePoints(items, points);
    r := Ok(points);
  }

  /** A device without its points, and the values its points are read from. */
  function ReadDevice(j: Json): (r: Result<(Device, seq<Json>)>)
    ensures r.Ok? ==> r.value.0.id != ""
  {
    if !j.Obj? then Err(NotObject) else
    var id :- StringAt(j, "id");
    var kind :- StringAt(j, "driver");
    var settings :- ObjectAt(j, "driver_config");
    var library :- PathAt(j, "library");
    var connectionValue :- Member(j, "connection");
    var connection :- StringMap(connectionValue);
    var points :- ArrayAt(j, "points");
    Ok((Device(id, Spec(kind, settings, library), connection, []), points))
  }

  ghost predicate DeviceIs(j: Json, d: Device) {
    var r := ReadDevice(j);
    r.Ok? && d == r.value.0.(points := d.points) && PointsAre(r.value.1, d.points)
  }

  predicate DistinctDevices(devices: seq<Device>) {
    forall i, j | 0 <= i < j < |devices| :: devices[i].id != devices[j].id
  }

  ghost predicate DevicesAre(items: seq<Json>, devices: seq<Device>) {
    && |devices| == |items| && devices != []
    && (forall i | 0 <= i < |items| :: DeviceIs(items[i], devices[i]))
    && DistinctDevices(devices)
  }

  /** The lookup table parse_devices fills for parse_groups. */
  ghost predicate Tabulates(points: map<string, set<string>>, devices: seq<Device>) {
    && (forall i | 0 <= i < |devices| :: devices[i].id in points && points[devices[i].id] == Names(devices[i].points))
    && (forall id | id in points :: exists i :: 0 <= i < |devices| && devices[i].id == id)
  }

  /** The first values have been read. */
  ghost predicate ReadSoFar(items: seq<Json>, devices: seq<Device>) {
    && |devices| <= |items| && DistinctDevices(devices)
    && forall i | 0 <= i < |devices| :: DeviceIs(items[i], devices[i])
  }

  lemma {:induction false} ReadMore(items: seq<Json>, points: map<string, set<string>>, devices: seq<Device>, d: Device)
    requires Tabulates(points, devices) && d.id !in points && ReadSoFar(items, devices)
    requires |devices| < |items| && DeviceIs(items[|devices|], d)
    ensures Tabulates(points[d.id := Names(d.points)], devices + [d]) && ReadSoFar(items, devices + [d])
  {
    var more := devices + [d];
    assert more[|devices|] == d;
    assert forall i | 0 <= i < |devices| :: more[i] == devices[i];
  }

  method ParseDevice(j: Json) returns (r: Result<Device>)
    ensures forall d :: DeviceIs(j, d) <==> r == Ok(d)
  {
    var header := ReadDevice(j);
    if header.Err? {
      return Err(header.error);
    }
    var points := ParsePoints(header.value.1);
    if points.Err? {
      return Err(points.error);
    }
    r := Ok(header.value.0.(points := points.value));
  }

  /** No list of devices can be read from these values. */
  ghost predicate NoDevices(items: seq<Json>) {
    forall devices :: !DevicesAre(items, devices)
  }

  lemma {:induction false} NotTwice(items: seq<Json>, k: nat, n: nat, d: Device, e: Device)
    requires k < n < |items| && DeviceIs(items[k], d) && DeviceIs(items[n], e) && d.id == e.id
    ensures NoDevices(items)
  {}

  lemma {:induction false} NotAt(items: seq<Json>, n: nat)
    requires n < |items| && forall d :: !DeviceIs(items[n], d)
    ensures NoDevices(items)
  {
    forall devices
      ensures !DevicesAre(items, devices)
    {
      if |devices| == |items| {
        assert !DeviceIs(items[n], devices[n]);
      }
    }
  }

  lemma {:induction false} SameDevices(items: seq<Json>, a: seq<Device>)
    requires DevicesAre(items, a)
    ensures forall b: seq<Device> :: DevicesAre(items, b) ==> b == a
  {
    forall b: seq<Device> | DevicesAre(items, b)
      ensures b == a
    {
      forall i | 0 <= i < |a|
        ensures a[i] == b[i]
      {
        assert DeviceIs(items[i], a[i]) && DeviceIs(items[i], b[i]);
        SamePoints(ReadDevice(items[i]).value.1, a[i].points);
      }
    }
  }

  method ParseDevices(items: seq<Json>) returns (r: Result<seq<Device>>, points: map<string, set<string>>)
    ensures forall devices :: DevicesAre(items, devices) <==> r == Ok(devices)
    ensures r.Ok? ==> Tabulates(points, r.value)
  {
    points := map[];
    if items == [] {
      r := Err(IsEmpty);
      return;
    }
    var devices: seq<Device> := [];
    while |devices| < |items|
      invariant ReadSoFar(items, devices) && Tabulates(points, devices)
      decreases |items| - |devices|
    {
      var device := ParseDevice(items[|devices|]);
      if device.Err? {
        NotAt(items, |devices|);
        r := Err(device.error);
        return;
      }
      if device.value.id in points {
        var k :| 0 <= k < |devices| && devices[k].id == device.value.id;
        NotTwice(items, k, |devices|, devices[k], device.value);
        r := Err(Duplicate);
        return;
      }
      ReadMore(items, points, devices, device.value);
      points := points[device.value.id := Names(device.value.points)];
      devices := devices + [device.value];
    }
    SameDevices(items, devices);
    r := Ok(devices);
  }

  // ----- groups -----

  ghost predicate StringsAre(v: Json, strings: seq<string>) {
    && v.Arr? && |strings| == |v.items| && strings != []
    && (forall i | 0 <= i < |strings| :: StringValue(v.items[i], false) == Ok(strings[i]))
    && (forall i, j | 0 <= i < j < |strings| :: strings[i] != strings[j])
  }

  /** string_array with require_non_empty. */
  method StringArray(v: Json) returns (r: Result<seq<string>>)
    ensures forall strings :: StringsAre(v, strings) <==> r == Ok(strings)
  {
    if !v.Arr? || v.items == [] {
      return Err(NotArray);
    }
    var strings: seq<string> := [];
    while |strings| < |v.items|
      invariant |strings| <= |v.items|
      invariant forall i | 0 <= i < |strings| :: StringValue(v.items[i], false) == Ok(strings[i])
      invariant forall i, j | 0 <= i < j < |strings| :: strings[i] != strings[j]
      decreases |v.items| - |strings|
    {
      var item := StringValue(v.items[|strings|], false);
      if item.Err? {
        return Err(item.error);
      }
      if item.value in strings {
        var k :| 0 <= k < |strings| && strings[k] == item.value;
        return Err(Duplicate);
      }
      strings := strings + [item.value];
    }
    SameStrings(v, strings);
    r := Ok(strings);
  }

  /** A group without its points, and the value they are read from. */
  function ReadGroup(j: Json): (r: Result<(Group, Json)>)
    ensures r.Ok? ==> r.value.0.id != "" && 0 < r.value.0.interval && 0 < r.value.0.timeout
  {
    if !j.Obj? then Err(NotObject) else
    var id :- StringAt(j, "id");
    var deviceId :- StringAt(j, "device_id");
    var interval :- PositiveAt(j, "interval_ms", MAX_MILLISECONDS);
    var timeout :- PositiveAt(j, "timeout_ms", MAX_MILLISECONDS);
    var points :- Member(j, "points");
    Ok((Group(id, deviceId, interval, timeout, []), points))
  }

  /** The group names a device, and only points of that device. */
  ghost predicate Refers(g: Group, devices: seq<Device>) {
    exists k :: 0 <= k < |devices| && devices[k].id == g.deviceId && OnlyNames(g.points, Names(devices[k].points))
  }

  predicate OnlyNames(points: seq<string>, names: set<string>) {
    forall i | 0 <= i < |points| :: points[i] in names
  }

  ghost predicate GroupIs(j: Json, g: Group, devices: seq<Device>) {
    var r := ReadGroup(j);
    r.Ok? && g == r.value.0.(points := g.points) && StringsAre(r.value.1, g.points) && Refers(g, devices)
  }

  function GroupIds(groups: seq<Group>): set<string> {
    set i | 0 <= i < |groups| :: groups[i].id
  }

  lemma {:induction false} GroupIdsGrow(groups: seq<Group>, g: Group)
    ensures GroupIds(groups + [g]) == GroupIds(groups) + {g.id}
  {
    var more := groups + [g];
    assert more[|groups|] == g;
    assert forall i | 0 <= i < |groups| :: more[i] == groups[i];
  }

  predicate DistinctGroups(groups: seq<Group>) {
    forall i, j | 0 <= i < j < |groups| :: groups[i].id != groups[j].id
  }

  ghost predicate GroupsAre(items: seq<Json>, groups: seq<Group>, devices: seq<Device>) {
    && |groups| == |items|
    && (forall i | 0 <= i < |items| :: GroupIs(items[i], groups[i], devices))
    && DistinctGroups(groups)
  }

  method ParseGroup(j: Json, points: map<string, set<string>>, ghost devices: seq<Device>) returns (r: Result<Group>)
    requires Tabulates(points, devices) && DistinctDevices(devices)
    ensures forall g :: GroupIs(j, g, devices) <==> r == Ok(g)
  {
    var header := ReadGroup(j);
    if header.Err? {
      return Err(header.error);
    }
    var strings := StringArray(header.value.1);
    if strings.Err? {
      return Err(strings.error);
    }
    var group := header.value.0.(points := strings.value);
    assert forall g :: GroupIs(j, g, devices) ==> g.points == group.points by {
      SameStrings(header.value.1, strings.value);
    }
    if group.deviceId !in points {
      return Err(Unknown);
    }
    var i := 0;
    while i < |group.points|
      invariant 0 <= i <= |group.points|
      invariant forall k | 0 <= k < i :: group.points[k] in points[group.deviceId]
    {
      if group.points[i] !in points[group.deviceId] {
        return Err(Unknown);
      }
      i := i + 1;
    }
    r := Ok(group);
  }

  lemma {:induction false} SameStrings(v: Json, a: seq<string>)
    requires StringsAre(v, a)
    ensures forall b :: StringsAre(v, b) ==> b == a
  {
    forall b | StringsAre(v, b)
      ensures b == a
    {
      assert forall i | 0 <= i < |a| :: Ok(a[i]) == StringValue(v.items[i], false) == Ok(b[i]);
    }
  }

  lemma {:induction false} SameGroupId(items: seq<Json>, k: nat, n: nat, g: Group, h: Group, devices: seq<Device>)
    requires k < n < |items| && GroupIs(items[k], g, devices) && GroupIs(items[n], h, devices) && g.id == h.id
    ensures forall groups :: !GroupsAre(items, groups, devices)
  {}

  lemma {:induction false} NoGroupAt(items: seq<Json>, n: nat, devices: seq<Device>)
    requires n < |items| && forall g :: !GroupIs(items[n], g, devices)
    ensures forall groups :: !GroupsAre(items, groups, devices)
  {
    forall groups
      ensures !GroupsAre(items, groups, devices)
    {
      if |groups| == |items| {
        assert !GroupIs(items[n], groups[n], devices);
      }
    }
  }

  lemma {:induction false} SameGroups(items: seq<Json>, a: seq<Group>, devices: seq<Device>)
    requires GroupsAre(items, a, devices)
    ensures forall b :: GroupsAre(items, b, devices) ==> b == a
  {
    forall b | GroupsAre(items, b, devices)
      ensures b == a
    {
      forall i | 0 <= i < |a|
        ensures a[i] == b[i]
      {
        assert GroupIs(items[i], a[i], devices) && GroupIs(items[i], b[i], devices);
        SameStrings(ReadGroup(items[i]).value.1, a[i].points);
      }
    }
  }

  method ParseGroups(items: seq<Json>, points: map<string, set<string>>, ghost devices: seq<Device>)
    returns (r: Result<seq<Group>>)
    requires Tabulates(points, devices) && DistinctDevices(devices)
    ensures forall groups :: GroupsAre(items, groups, devices) <==> r == Ok(groups)
  {
    var groups: seq<Group> := [];
    var ids := {};
    while |groups| < |items|
      invariant |groups| <= |items| && ids == GroupIds(groups)
      invariant forall i | 0 <= i < |groups| :: GroupIs(items[i], groups[i], devices)
      invariant DistinctGroups(groups)
      decreases |items| - |groups|
    {
      var n := |groups|;
      var group := ParseGroup(items[n], points, devices);
      if group.Err? {
        NoGroupAt(items, n, devices);
        return Err(group.error);
      }
      if group.value.id in ids {
        var k :| 0 <= k < |groups| && groups[k].id == group.value.id;
        SameGroupId(items, k, n, groups[k], group.value, devices);
        return Err(Duplicate);
      }
      GroupIdsGrow(groups, group.value);
      ids := ids + {group.value.id};
      groups := groups + [group.value];
    }
    SameGroups(items, groups, devices);
    r := Ok(groups);
  }

  // ----- plugins -----

  function ReadPlugin(j: Json): (r: Result<Plugin>)
    ensures r.Ok? ==> r.value.id != "" && r.value.spec.kind != ""
  {
    if !j.Obj? then Err(NotObject) else
    var id :- StringAt(j, "id");
    var kind :- StringAt(j, "type");
    var enabled :- EnabledAt(j);
    var settings :- ObjectAt(j, "config");
    var library :- PathAt(j, "library");
    Ok(Plugin(id, Spec(kind, settings, library), enabled))
  }

  function PluginIds(plugins: seq<Plugin>): set<string> {
    set i | 0 <= i < |plugins| :: plugins[i].id
  }

  lemma {:induction false} PluginIdsGrow(plugins: seq<Plugin>, p: Plugin)
    ensures PluginIds(plugins + [p]) == PluginIds(plugins) + {p.id}
  {
    var more := plugins + [p];
    assert more[|plugins|] == p;
    assert forall i | 0 <= i < |plugins| :: more[i] == plugins[i];
  }

  predicate DistinctPlugins(plugins: seq<Plugin>) {
    forall i, j | 0 <= i < j < |plugins| :: plugins[i].id != plugins[j].id
  }

  /** The plugins under a key; a list that is optional and absent is empty. */
  ghost predicate PluginsAre(root: Json, key: string, optional: bool, plugins: seq<Plugin>)
    requires root.Obj?
  {
    if optional && key !in root.members then plugins == []
    else
      var items := ArrayAt(root, key);
      && items.Ok? && |plugins| == |items.value|
      && (forall i | 0 <= i < |plugins| :: ReadPlugin(items.value[i]) == Ok(plugins[i]))
      && DistinctPlugins(plugins)
  }

  lemma {:induction false} SamePlugins(root: Json, key: string, optional: bool, a: seq<Plugin>)
    requires root.Obj? && PluginsAre(root, key, optional, a)
    ensures forall b :: PluginsAre(root, key, optional, b) ==> b == a
  {
    forall b | PluginsAre(root, key, optional, b)
      ensures b == a
    {
      assert forall i | 0 <= i < |a| :: Ok(a[i]) == ReadPlugin(ArrayAt(root, key).value[i]) == Ok(b[i]);
    }
  }

  method ParsePlugins(root: Json, key: string, optional: bool) returns (r: Result<seq<Plugin>>)
    requires root.Obj?
    ensures forall plugins :: PluginsAre(root, key, optional, plugins) <==> r == Ok(plugins)
  {
    if optional && key !in root.members {
      return Ok([]);
    }
    var items := ArrayAt(root, key);
    if items.Err? {
      return Err(items.error);
    }
    var plugins: seq<Plugin> := [];
    var ids := {};
    while |plugins| < |items.value|
      invariant |plugins| <= |items.value| && ids == PluginIds(plugins)
      invariant forall i | 0 <= i < |plugins| :: ReadPlugin(items.value[i]) == Ok(plugins[i])
      invariant DistinctPlugins(plugins)
      decreases |items.value| - |plugins|
    {
      var plugin := ReadPlugin(items.value[|plugins|]);
      if plugin.Err? {
        return Err(plugin.error);
      }
      if plugin.value.id in ids {
        var k :| 0 <= k < |plugins| && plugins[k].id == plugin.value.id;
        return Err(Duplicate);
      }
      PluginIdsGrow(plugins, plugin.value);
      ids := ids + {plugin.value.id};
      plugins := plugins + [plugin.value];
    }
    SamePlugins(root, key, optional, plugins);
    r := Ok(plugins);
  }

  // ----- the whole configuration -----

  function ReadCapacities(root: Json): (r: Result<Capacities>)
    ensures r.Ok? ==> 0 < r.value.raw <= MAX_SIZE && 0 < r.value.control <= MAX_SIZE
    ensures r.Ok? && r.value.runDuration.Some? ==> 0 < r.value.runDuration.value
  {
    if !root.Obj? then Err(NotObject) else
    var runtime :- ObjectAt(root, "runtime");
    var duration :- if "run_duration_ms" in runtime.members && !runtime.members["run_duration_ms"].Null?
                    then var d :- PositiveAt(runtime, "run_duration_ms", MAX_MILLISECONDS); Ok(Some(d))
                    else Ok(None);
    var raw :- PositiveAt(runtime, "raw_queue_capacity", MAX_SIZE);
    var control :- if "control_queue_capacity" in runtime.members
                   then PositiveAt(runtime, "control_queue_capacity", MAX_SIZE) else Ok(DEFAULT_CONTROL_CAPACITY);
    Ok(Capacities(raw, control, duration))
  }

  ghost predicate ConfigIs(root: Json, c: Application) {
    && root.Obj? && ReadCapacities(root) == Ok(c.capacities)
    && ArrayAt(root, "devices").Ok? && DevicesAre(ArrayAt(root, "devices").value, c.devices)
    && ArrayAt(root, "groups").Ok? && GroupsAre(ArrayAt(root, "groups").value, c.groups, c.devices)
    && PluginsAre(root, "processors", false, c.processors)
    && PluginsAre(root, "event_publishers", false, c.publishers)
    && PluginsAre(root, "device_control_sources", true, c.sources)
  }

  method ParseApplication(root: Json) returns (r: Result<Application>)
    ensures forall c :: ConfigIs(root, c) <==> r == Ok(c)
  {
    var capacities := ReadCapacities(root);
    if capacities.Err? {
      return Err(capacities.error);
    }
    var deviceItems := ArrayAt(root, "devices");
    if deviceItems.Err? {
      return Err(deviceItems.error);
    }
    var devices, points := ParseDevices(deviceItems.value);
    if devices.Err? {
      return Err(devices.error);
    }
    var groupItems := ArrayAt(root, "groups");
    if groupItems.Err? {
      return Err(groupItems.error);
    }
    var groups := ParseGroups(groupItems.value, points, devices.value);
    if groups.Err? {
      return Err(groups.error);
    }
    var processors := ParsePlugins(root, "processors", false);
    if processors.Err? {
      return Err(processors.error);
    }
    var publishers := ParsePlugins(root, "event_publishers", false);
    if publishers.Err? {
      return Err(publishers.error);
    }
    var sources := ParsePlugins(root, "device_control_sources", true);
    if sources.Err? {
      return Err(sources.error);
    }
    r := Ok(Application(capacities.value, devices.value, groups.value,
                        processors.value, publishers.value, sources.value));
  }
}
