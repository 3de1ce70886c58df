/** The event encoder of src/publisher/mqtt/mqtt_event_publisher.cpp, and a decoder for what it writes. A double is
    represented by the text the stream writes for it, "null" when it is not finite. */
module EventJson {
  import opened Events
  import opened Options
  import opened Json
  import opened JsonRoundTrip

  function QualityName(q: Quality): string {
    match q
    case Good => "good"
    case Timeout => "timeout"
    case Disconnected => "disconnected"
    case DecodeError => "decode_error"
    case OutOfRange => "out_of_range"
    case Bad => "bad"
  }

  // ----- the tree an event stands for -----

  function ListOf(vs: seq<Value>): Values {
    if vs == [] then NoValue else Values(vs[0], ListOf(vs[1..]))
  }

  function ByteTrees(bytes: seq<Byte>): seq<Value> {
    seq(|bytes|, i requires 0 <= i < |bytes| => Int(bytes[i]))
  }

  function ScalarTree(v: Scalar<string>): Value {
    match v
    case Integer(n) => Int(n)
    case Double(text) => Decimal(text)
    case Boolean(b) => Bool(b)
    case Text(s) => Str(s)
    case Bytes(bytes) => Arr(ListOf(ByteTrees(bytes)))
  }

  function ReadingTree(r: Reading<string>): Value {
    Obj(Members("point", Str(r.point),
        Members("value", ScalarTree(r.value),
        Members("quality", Str(QualityName(r.quality)),
        Members("unit", Str(r.unit), Stamps(r))))))
  }

  function ReadingTrees(rs: seq<Reading<string>>): seq<Value> {
    seq(|rs|, i requires 0 <= i < |rs| => ReadingTree(rs[i]))
  }

  function EventTree(e: Event<string>): Value {
    Obj(Members("event_id", Str(e.eventId),
        Members("device_id", Str(e.deviceId),
        Members("source", Str(e.source),
        Members("model_version", Str(e.modelVersion),
        Members("readings", Arr(ListOf(ReadingTrees(e.readings))), NoMember))))))
  }

  // ----- reading an event back from a tree -----

  function Lookup(ms: Members, key: string): Option<Value> {
    if ms == NoMember then None else if ms.key == key then Some(ms.value) else Lookup(ms.rest, key)
  }

  function LookupString(ms: Members, key: string): Option<string> {
    match Lookup(ms, key)
    case Some(Str(s)) => Some(s)
    case _ => None
  }

  function LookupInt(ms: Members, key: string): Option<int> {
    match Lookup(ms, key)
    case Some(Int(n)) => Some(n)
    case _ => None
  }

  function QualityOf(name: string): Option<Quality> {
    if name == "good" then Some(Good)
    else if name == "timeout" then Some(Timeout)
    else if name == "disconnected" then Some(Disconnected)
    else if name == "decode_error" then Some(DecodeError)
    else if name == "out_of_range" then Some(OutOfRange)
    else if name == "bad" then Some(Quality.Bad)
    else None
  }

  function BytesOf(vs: Values): Option<seq<Byte>> {
    match vs
    case NoValue => Some([])
    case Values(Int(n), more) =>
      (match BytesOf(more)
       case Some(bytes) => if 0 <= n < 256 then Some([n as Byte] + bytes) else None
       case None => None)
    case _ => None
  }

  function ScalarOf(v: Value): Option<Scalar<string>> {
    match v
    case Int(n) => Some(Integer(n))
    case Bool(b) => Some(Boolean(b))
    case Str(s) => Some(Text(s))
    case Arr(items) =>
      (match BytesOf(items)
       case Some(bytes) => Some(Bytes(bytes))
       case None => None)
    case _ => None
  }

  function ReadingOf(v: Value): Option<Reading<string>> {
    if !v.Obj? then None
    else
      var ms := v.members;
      match (LookupString(ms, "point"), Lookup(ms, "value"), LookupString(ms, "quality"), LookupString(ms, "unit"),
             LookupInt(ms, "source_time_ns"), LookupInt(ms, "received_time_ns"), Lookup(ms, "derived"))
      case (Some(point), Some(value), Some(quality), Some(unit), Some(sourceTime), Some(receivedTime),
            Some(Bool(derived))) =>
        (match (ScalarOf(value), QualityOf(quality))
         case (Some(scalar), Some(q)) => Some(Reading(point, scalar, q, unit, sourceTime, receivedTime, derived))
         case _ => None)
      case _ => None
  }

  function ReadingsOf(vs: Values): Option<seq<Reading<string>>> {
    match vs
    case NoValue => Some([])
    case Values(v, more) =>
      match (ReadingOf(v), ReadingsOf(more))
      case (Some(r), Some(rs)) => Some([r] + rs)
      case _ => None
  }

  function EventOf(v: Value): Option<Event<string>> {
    if !v.Obj? then None
    else
      var ms := v.members;
      match (LookupString(ms, "event_id"), LookupString(ms, "device_id"), LookupString(ms, "source"),
             LookupString(ms, "model_version"), Lookup(ms, "readings"))
      case (Some(eventId), Some(deviceId), Some(source), Some(modelVersion), Some(Arr(items))) =>
        (match ReadingsOf(items)
         case Some(readings) => Some(Event(eventId, deviceId, source, readings, modelVersion))
         case None => None)
      case _ => None
  }

  /** Reads an event from a JSON text. */
  function Decode(text: string): Option<Event<string>> {
    match Parse(text)
    case Got(v, _) => EventOf(v)
    case Bad => None
  }

  // ----- the round trip on trees -----

  ghost predicate NoDoubles(e: Event<string>) {
    forall i | 0 <= i < |e.readings| :: !e.readings[i].value.Double?
  }

  lemma {:induction false} BytesBack(bytes: seq<Byte>)
    ensures BytesOf(ListOf(ByteTrees(bytes))) == Some(bytes) && ExactItems(ListOf(ByteTrees(bytes)))
  {
    if bytes != [] {
      BytesBack(bytes[1..]);
      assert ByteTrees(bytes)[1..] == ByteTrees(bytes[1..]);
      assert [bytes[0]] + bytes[1..] == bytes;
    }
  }

  lemma {:induction false} ScalarBack(v: Scalar<string>)
    requires !v.Double?
    ensures ScalarOf(ScalarTree(v)) == Some(v) && Exact(ScalarTree(v))
  {
    if v.Bytes? {
      BytesBack(v.bytes);
    }
  }

  /** The names consumers see. */
  lemma QualityNames()
    ensures QualityName(Good) == "good" && QualityName(Timeout) == "timeout"
    ensures QualityName(Disconnected) == "disconnected" && QualityName(DecodeError) == "decode_error"
    ensures QualityName(OutOfRange) == "out_of_range" && QualityName(Quality.Bad) == "bad"
  {}

  lemma QualityBack(q: Quality)
    ensures QualityOf(QualityName(q)) == Some(q)
  {}

  lemma {:induction false} LookupHere(key: string, v: Value, rest: Members)
    ensures Lookup(Members(key, v, rest), key) == Some(v)
  {}

  lemma {:induction false} LookupNext(k: string, v: Value, rest: Members, key: string)
    requires k != key
    ensures Lookup(Members(k, v, rest), key) == Lookup(rest, key)
  {}

  lemma {:induction false} OneExact(key: string, v: Value, rest: Members)
    requires Exact(v) && ExactMembers(rest)
    ensures ExactMembers(Members(key, v, rest))
  {}

  /** The members of a reading after the first four. */
  lemma {:induction false} StampsBack(r: Reading<string>)
    ensures Lookup(Stamps(r), "source_time_ns") == Some(Int(r.sourceTime))
    ensures Lookup(Stamps(r), "received_time_ns") == Some(Int(r.receivedTime))
    ensures Lookup(Stamps(r), "derived") == Some(Bool(r.derived))
  {
    var last := Members("derived", Bool(r.derived), NoMember);
    var more := Members("received_time_ns", Int(r.receivedTime), last);
    LookupHere("source_time_ns", Int(r.sourceTime), more);
    LookupNext("source_time_ns", Int(r.sourceTime), more, "received_time_ns");
    LookupHere("received_time_ns", Int(r.receivedTime), last);
    LookupNext("source_time_ns", Int(r.sourceTime), more, "derived");
    LookupNext("received_time_ns", Int(r.receivedTime), last, "derived");
    LookupHere("derived", Bool(r.derived), NoMember);
  }

  lemma {:induction false} StampsExact(r: Reading<string>)
    ensures ExactMembers(Stamps(r))
  {
    var last := Members("derived", Bool(r.derived), NoMember);
    var more := Members("received_time_ns", Int(r.receivedTime), last);
    OneExact("derived", Bool(r.derived), NoMember);
    OneExact("received_time_ns", Int(r.receivedTime), last);
    OneExact("source_time_ns", Int(r.sourceTime), more);
  }

  /** The four members in front do not hide one behind them. */
  lemma {:induction false} LookupPastFour(a: Value, b: Value, c: Value, d: Value, rest: Members, key: string)
    requires key != "point" && key != "value" && key != "quality" && key != "unit"
    ensures Lookup(Members("point", a, Members("value", b, Members("quality", c, Members("unit", d, rest)))), key)
            == Lookup(rest, key)
  {
    var m4 := Members("unit", d, rest);
    var m3 := Members("quality", c, m4);
    var m2 := Members("value", b, m3);
    LookupNext("point", a, m2, key);
    LookupNext("value", b, m3, key);
    LookupNext("quality", c, m4, key);
    LookupNext("unit", d, rest, key);
  }

  lemma {:induction false} FirstFourBack(a: Value, b: Value, c: Value, d: Value, rest: Members)
    ensures var ms := Members("point", a, Members("value", b, Members("quality", c, Members("unit", d, rest))));
            && Lookup(ms, "point") == Some(a) && Lookup(ms, "value") == Some(b)
            && Lookup(ms, "quality") == Some(c) && Lookup(ms, "unit") == Some(d)
  {
    var m4 := Members("unit", d, rest);
    var m3 := Members("quality", c, m4);
    var m2 := Members("value", b, m3);
    LookupHere("point", a, m2);
    LookupNext("point", a, m2, "value");
    LookupHere("value", b, m3);
    LookupNext("point", a, m2, "quality");
    LookupNext("value", b, m3, "quality");
    LookupHere("quality", c, m4);
    LookupNext("point", a, m2, "unit");
    LookupNext("value", b, m3, "unit");
    LookupNext("quality", c, m4, "unit");
    LookupHere("unit", d, rest);
  }

  /** What the members of an object must say for it to be read as that reading. */
  ghost predicate Tells(ms: Members, r: Reading<string>) {
    && Lookup(ms, "point") == Some(Str(r.point)) && Lookup(ms, "value") == Some(ScalarTree(r.value))
    && Lookup(ms, "quality") == Some(Str(QualityName(r.quality))) && Lookup(ms, "unit") == Some(Str(r.unit))
    && Lookup(ms, "source_time_ns") == Some(Int(r.sourceTime))
    && Lookup(ms, "received_time_ns") == Some(Int(r.receivedTime))
    && Lookup(ms, "derived") == Some(Bool(r.derived))
  }

  lemma {:induction false} ReadingTold(ms: Members, r: Reading<string>)
    requires Tells(ms, r) && ScalarOf(ScalarTree(r.value)) == Some(r.value)
    ensures ReadingOf(Obj(ms)) == Some(r)
  {
    QualityBack(r.quality);
  }

  /** Every field of a reading is under its own name. */
  lemma {:induction false} ReadingFields(r: Reading<string>)
    ensures var ms := ReadingTree(r).members;
            && Lookup(ms, "point") == Some(Str(r.point)) && Lookup(ms, "value") == Some(ScalarTree(r.value))
            && Lookup(ms, "quality") == Some(Str(QualityName(r.quality))) && Lookup(ms, "unit") == Some(Str(r.unit))
            && Lookup(ms, "source_time_ns") == Some(Int(r.sourceTime))
            && Lookup(ms, "received_time_ns") == Some(Int(r.receivedTime))
            && Lookup(ms, "derived") == Some(Bool(r.derived))
  {
    var a, b, c, d := Str(r.point), ScalarTree(r.value), Str(QualityName(r.quality)), Str(r.unit);
    FirstFourBack(a, b, c, d, Stamps(r));
    StampsBack(r);
    LookupPastFour(a, b, c, d, Stamps(r), "source_time_ns");
    LookupPastFour(a, b, c, d, Stamps(r), "received_time_ns");
    LookupPastFour(a, b, c, d, Stamps(r), "derived");
  }

  lemma {:induction false} ReadingExact(r: Reading<string>)
    requires Exact(ScalarTree(r.value))
    ensures Exact(ReadingTree(r))
  {
    var m4 := Members("unit", Str(r.unit), Stamps(r));
    var m3 := Members("quality", Str(QualityName(r.quality)), m4);
    var m2 := Members("value", ScalarTree(r.value), m3);
    StampsExact(r);
    OneExact("unit", Str(r.unit), Stamps(r));
    OneExact("quality", Str(QualityName(r.quality)), m4);
    OneExact("value", ScalarTree(r.value), m3);
    OneExact("point", Str(r.point), m2);
  }

  lemma {:induction false} ReadingBack(r: Reading<string>)
    requires !r.value.Double?
    ensures ReadingOf(ReadingTree(r)) == Some(r) && Exact(ReadingTree(r))
  {
    ScalarBack(r.value);
    ReadingFields(r);
    ReadingTold(ReadingTree(r).members, r);
    ReadingExact(r);
  }

  lemma {:induction false} ReadingsBack(rs: seq<Reading<string>>)
    requires forall i | 0 <= i < |rs| :: !rs[i].value.Double?
    ensures ReadingsOf(ListOf(ReadingTrees(rs))) == Some(rs) && ExactItems(ListOf(ReadingTrees(rs)))
  {
    if rs != [] {
      ReadingBack(rs[0]);
      ReadingsBack(rs[1..]);
      assert ReadingTrees(rs)[1..] == ReadingTrees(rs[1..]);
      assert [rs[0]] + rs[1..] == rs;
    }
  }

  lemma {:induction false} FirstTwoBack(a: Value, b: Value, rest: Members)
    ensures var ms := Members("event_id", a, Members("device_id", b, rest));
            && Lookup(ms, "event_id") == Some(a) && Lookup(ms, "device_id") == Some(b)
            && Lookup(ms, "source") == Lookup(rest, "source")
            && Lookup(ms, "model_version") == Lookup(rest, "model_version")
            && Lookup(ms, "readings") == Lookup(rest, "readings")
  {
    var m2 := Members("device_id", b, rest);
    LookupHere("event_id", a, m2);
    LookupNext("event_id", a, m2, "device_id");
    LookupHere("device_id", b, rest);
    LookupNext("event_id", a, m2, "source");
    LookupNext("device_id", b, rest, "source");
    LookupNext("event_id", a, m2, "model_version");
    LookupNext("device_id", b, rest, "model_version");
    LookupNext("event_id", a, m2, "readings");
    LookupNext("device_id", b, rest, "readings");
  }

  lemma {:induction false} LastThreeBack(c: Value, d: Value, items: Value)
    ensures var ms := Members("source", c, Members("model_version", d, Members("readings", items, NoMember)));
            && Lookup(ms, "source") == Some(c) && Lookup(ms, "model_version") == Some(d)
            && Lookup(ms, "readings") == Some(items)
  {
    var m3 := Members("readings", items, NoMember);
    var m2 := Members("model_version", d, m3);
    LookupHere("source", c, m2);
    LookupNext("source", c, m2, "model_version");
    LookupHere("model_version", d, m3);
    LookupNext("source", c, m2, "readings");
    LookupNext("model_version", d, m3, "readings");
    LookupHere("readings", items, NoMember);
  }

  /** What the members of an object must say for it to be read as that event. */
  ghost predicate TellsEvent(ms: Members, e: Event<string>) {
    && Lookup(ms, "event_id") == Some(Str(e.eventId)) && Lookup(ms, "device_id") == Some(Str(e.deviceId))
    && Lookup(ms, "source") == Some(Str(e.source)) && Lookup(ms, "model_version") == Some(Str(e.modelVersion))
    && Lookup(ms, "readings") == Some(Arr(ListOf(ReadingTrees(e.readings))))
  }

  /** Every field of an event is under its own name. */
  lemma {:induction false} EventFields(e: Event<string>)
    ensures var ms := EventTree(e).members;
            && Lookup(ms, "event_id") == Some(Str(e.eventId)) && Lookup(ms, "device_id") == Some(Str(e.deviceId))
            && Lookup(ms, "source") == Some(Str(e.source)) && Lookup(ms, "model_version") == Some(Str(e.modelVersion))
            && Lookup(ms, "readings") == Some(Arr(ListOf(ReadingTrees(e.readings))))
  {
    var c, d, items := Str(e.source), Str(e.modelVersion), Arr(ListOf(ReadingTrees(e.readings)));
    LastThreeBack(c, d, items);
    FirstTwoBack(Str(e.eventId), Str(e.deviceId),
                 Members("source", c, Members("model_version", d, Members("readings", items, NoMember))));
  }

  /** The text of a value that is not an array. */
  lemma ScalarTexts(v: Scalar<string>)
    requires !v.Bytes?
    ensures Print(ScalarTree(v)) ==
            match v
            case Integer(n) => Number(n)
            case Double(text) => text
            case Boolean(b) => if b then "true" else "false"
            case Text(s) => "\"" + EscapeAll(s) + "\""
            case Bytes(_) => ""
  {}

  lemma {:induction false} EventExact(e: Event<string>)
    requires ExactItems(ListOf(ReadingTrees(e.readings)))
    ensures Exact(EventTree(e))
  {
    var m5 := Members("readings", Arr(ListOf(ReadingTrees(e.readings))), NoMember);
    var m4 := Members("model_version", Str(e.modelVersion), m5);
    var m3 := Members("source", Str(e.source), m4);
    var m2 := Members("device_id", Str(e.deviceId), m3);
    OneExact("readings", Arr(ListOf(ReadingTrees(e.readings))), NoMember);
    OneExact("model_version", Str(e.modelVersion), m5);
    OneExact("source", Str(e.source), m4);
    OneExact("device_id", Str(e.deviceId), m3);
    OneExact("event_id", Str(e.eventId), m2);
  }

  lemma {:induction false} EventBack(e: Event<string>)
    requires NoDoubles(e)
    ensures EventOf(EventTree(e)) == Some(e) && Exact(EventTree(e))
  {
    ReadingsBack(e.readings);
    EventFields(e);
    EventExact(e);
  }

  /** No text reads back as an event with a double in it: the reader cannot tell 1.0, written as 1, from 1. */
  lemma {:induction false} ReadingsExact(vs: Values)
    ensures ReadingsOf(vs).Some?
        ==> forall i | 0 <= i < |ReadingsOf(vs).value| :: !ReadingsOf(vs).value[i].value.Double?
  {
    if vs.Values? {
      ReadingsExact(vs.tail);
    }
  }

  /** The text of an event reads back as exactly that event if and only if no reading holds a double. */
  lemma {:induction false} EventRoundTrip(e: Event<string>)
    ensures Decode(Print(EventTree(e))) == Some(e) <==> NoDoubles(e)
  {
    if NoDoubles(e) {
      EventBack(e);
      RoundTrip(EventTree(e));
    } else if Parse(Print(EventTree(e))).Got? {
      var v := Parse(Print(EventTree(e))).value;
      if v.Obj? && Lookup(v.members, "readings").Some? && Lookup(v.members, "readings").value.Arr? {
        ReadingsExact(Lookup(v.members, "readings").value.items);
      }
    }
  }

  // ----- why doubles cannot be told apart -----

  lemma {:induction false} SameTrees(e: Event<string>, f: Event<string>)
    requires |e.readings| == |f.readings|
    requires forall i | 0 <= i < |e.readings| :: Print(ReadingTree(e.readings[i])) == Print(ReadingTree(f.readings[i]))
    ensures PrintItems(ListOf(ReadingTrees(e.readings))) == PrintItems(ListOf(ReadingTrees(f.readings)))
    decreases |e.readings|
  {
    if e.readings != [] {
      var e', f' := e.(readings := e.readings[1..]), f.(readings := f.readings[1..]);
      assert ReadingTrees(e.readings)[1..] == ReadingTrees(e'.readings);
      assert ReadingTrees(f.readings)[1..] == ReadingTrees(f'.readings);
      SameTrees(e', f');
    }
  }

  /** A double that prints like an integer prints like that integer. */
  lemma {:induction false} SameReading(r: Reading<string>, n: int)
    ensures Print(ReadingTree(r.(value := Integer(n)))) == Print(ReadingTree(r.(value := Double(Number(n)))))
  {
    var m4 := Members("unit", Str(r.unit), Stamps(r));
    var m3 := Members("quality", Str(QualityName(r.quality)), m4);
    SameValue(Int(n), Decimal(Number(n)), "value", m3);
  }

  lemma {:induction false} SameValue(v: Value, w: Value, key: string, rest: Members)
    requires Print(v) == Print(w)
    ensures PrintMembers(Members(key, v, rest)) == PrintMembers(Members(key, w, rest))
  {}

  /** Two different events have the same text when one holds an integer where the other holds a double that prints
      like it. So no decoder whatever recovers both, and recovering the event must exclude doubles. */
  lemma {:induction false} DoublesCollide(e: Event<string>, i: nat, n: int, decode: string -> Option<Event<string>>)
    requires i < |e.readings|
    ensures var r := e.readings[i];
            var whole := e.(readings := e.readings[i := r.(value := Integer(n))]);
            var double := e.(readings := e.readings[i := r.(value := Double(Number(n)))]);
            && whole != double && Print(EventTree(whole)) == Print(EventTree(double))
            && !(decode(Print(EventTree(whole))) == Some(whole) && decode(Print(EventTree(double))) == Some(double))
  {
    var r := e.readings[i];
    var whole := e.(readings := e.readings[i := r.(value := Integer(n))]);
    var double := e.(readings := e.readings[i := r.(value := Double(Number(n)))]);
    SameReading(r, n);
    SameTrees(whole, double);
    assert whole.readings[i] != double.readings[i];
    SameTexts(whole, double);
  }

  /** The members of an event around its readings. */
  ghost function Around(e: Event<string>, readings: Value): Members {
    Members("event_id", Str(e.eventId), Members("device_id", Str(e.deviceId), Members("source", Str(e.source),
    Members("model_version", Str(e.modelVersion), Members("readings", readings, NoMember)))))
  }

  lemma {:induction false} SameTexts(e: Event<string>, f: Event<string>)
    requires f == e.(readings := f.readings)
    requires PrintItems(ListOf(ReadingTrees(e.readings))) == PrintItems(ListOf(ReadingTrees(f.readings)))
    ensures Print(EventTree(e)) == Print(EventTree(f))
  {
    var a, b := Arr(ListOf(ReadingTrees(e.readings))), Arr(ListOf(ReadingTrees(f.readings)));
    SameAround(e, a, b);
    SameObjects(Around(e, a), Around(f, b));
  }

  lemma {:induction false} SameObjects(a: Members, b: Members)
    requires PrintMembers(a) == PrintMembers(b)
    ensures Print(Obj(a)) == Print(Obj(b))
  {}

  lemma {:induction false} SameAround(e: Event<string>, a: Value, b: Value)
    requires Print(a) == Print(b)
    ensures PrintMembers(Around(e, a)) == PrintMembers(Around(e, b))
  {
    var a5, b5 := Members("readings", a, NoMember), Members("readings", b, NoMember);
    var a4, b4 := Members("model_version", Str(e.modelVersion), a5), Members("model_version", Str(e.modelVersion), b5);
    var a3, b3 := Members("source", Str(e.source), a4), Members("source", Str(e.source), b4);
    var a2, b2 := Members("device_id", Str(e.deviceId), a3), Members("device_id", Str(e.deviceId), b3);
    SameValue(a, b, "readings", NoMember);
    SameRest("model_version", Str(e.modelVersion), a5, b5);
    SameRest("source", Str(e.source), a4, b4);
    SameRest("device_id", Str(e.deviceId), a3, b3);
    SameRest("event_id", Str(e.eventId), a2, b2);
  }

  lemma {:induction false} SameRest(key: string, v: Value, a: Members, b: Members)
    requires PrintMembers(a) == PrintMembers(b) && a.Members? && b.Members?
    ensures PrintMembers(Members(key, v, a)) == PrintMembers(Members(key, v, b))
  {}

  // ----- writing -----

  /** Texts separated by commas, as the loops build them: from the front, one at a time. */
  ghost function Join(parts: seq<string>): string {
    if parts == [] then ""
    else if |parts| == 1 then parts[0]
    else Join(parts[..|parts| - 1]) + "," + parts[|parts| - 1]
  }

  lemma {:induction false} JoinFront(part: string, parts: seq<string>)
    ensures Join([part] + parts) == if parts == [] then part else part + "," + Join(parts)
  {
    if |parts| > 1 {
      var front, last := parts[..|parts| - 1], parts[|parts| - 1];
      JoinFront(part, front);
      assert ([part] + parts)[..|parts|] == [part] + front;
    } else if |parts| == 1 {
      assert ([part] + parts)[..1] == [part];
    }
  }

  ghost function Printed(vs: seq<Value>): seq<string> {
    seq(|vs|, i requires 0 <= i < |vs| => Print(vs[i]))
  }

  lemma {:induction false} JoinPrints(vs: seq<Value>)
    ensures Join(Printed(vs)) == PrintItems(ListOf(vs))
  {
    if vs != [] {
      JoinPrints(vs[1..]);
      assert Printed(vs) == [Print(vs[0])] + Printed(vs[1..]);
      JoinFront(Print(vs[0]), Printed(vs[1..]));
    }
  }

  lemma {:induction false} EscapeLast(s: string, c: char)
    ensures EscapeAll(s + [c]) == EscapeAll(s) + Escape(c)
  {
    if s == "" {
      assert (s + [c])[1..] == "";
    } else {
      EscapeLast(s[1..], c);
      assert (s + [c])[1..] == s[1..] + [c] && (s + [c])[0] == s[0];
      Assoc(Escape(s[0]), EscapeAll(s[1..]), Escape(c));
    }
  }

  /** The switch of append_json_string. */
  method AppendChar(output: string, c: char) returns (r: string)
    ensures r == output + Escape(c)
  {
    if c == '"' {
      r := output + "\\\"";
    } else if c == '\\' {
      r := output + "\\\\";
    } else if c as int == 8 {
      r := output + "\\b";
    } else if c as int == 12 {
      r := output + "\\f";
    } else if c == '\n' {
      r := output + "\\n";
    } else if c == '\r' {
      r := output + "\\r";
    } else if c == '\t' {
      r := output + "\\t";
    } else if c as int < 0x20 {
      r := output + ("\\u00" + [HEX[c as int / 16], HEX[c as int % 16]]);
    } else {
      r := output + [c];
    }
  }

  lemma Assoc(a: string, b: string, c: string)
    ensures (a + b) + c == a + (b + c)
  {}

  method AppendString(output: string, value: string) returns (r: string)
    ensures r == output + Quoted(value)
  {
    r := output + "\"";
    for i := 0 to |value|
      invariant r == (output + "\"") + EscapeAll(value[..i])
    {
      EscapeLast(value[..i], value[i]);
      assert value[..i + 1] == value[..i] + [value[i]];
      Assoc(output + "\"", EscapeAll(value[..i]), Escape(value[i]));
      r := AppendChar(r, value[i]);
    }
    assert value[..|value|] == value;
    Assoc(output, "\"", EscapeAll(value));
    Assoc(output, "\"" + EscapeAll(value), "\"");
    r := r + "\"";
  }

  /** One more part of a list written after a prefix. */
  lemma {:induction false} Listed(prefix: string, parts: seq<string>, i: nat)
    requires i < |parts|
    ensures prefix + Join(parts[..i + 1]) ==
            (if i == 0 then prefix + Join(parts[..i]) else prefix + Join(parts[..i]) + ",") + parts[i]
  {
    assert parts[..i + 1][..i] == parts[..i];
    if i > 0 {
      Assoc(prefix, Join(parts[..i]), ",");
      Assoc(prefix, Join(parts[..i]) + ",", parts[i]);
    }
  }

  lemma BytesText(output: string, items: string)
    ensures ((output + "[") + items) + "]" == output + ("[" + items + "]")
  {}

  method AppendBytes(output: string, bytes: seq<Byte>) returns (r: string)
    ensures r == output + Print(ScalarTree(Bytes(bytes)))
  {
    ghost var parts := Printed(ByteTrees(bytes));
    r := output + "[";
    for i := 0 to |bytes|
      invariant r == (output + "[") + Join(parts[..i])
    {
      Listed(output + "[", parts, i);
      if i != 0 {
        r := r + ",";
      }
      r := r + Number(bytes[i]);
    }
    assert parts[..|bytes|] == parts;
    JoinPrints(ByteTrees(bytes));
    BytesText(output, PrintItems(ListOf(ByteTrees(bytes))));
    r := r + "]";
  }

  method AppendScalar(output: string, value: Scalar<string>) returns (r: string)
    ensures r == output + Print(ScalarTree(value))
  {
    match value
    case Integer(n) => r := output + Number(n);
    case Double(text) => r := output + text;
    case Boolean(b) => r := output + if b then "true" else "false";
    case Bytes(bytes) => r := AppendBytes(output, bytes);
    case Text(s) => r := AppendString(output, s);
  }

  // ----- writing objects member by member -----

  /** What is still to be written of an object after its first members. */
  ghost function Rest(ms: Members): string {
    if ms == NoMember then "}" else "," + PrintMembers(ms) + "}"
  }

  /** Characters that are written as they are. */
  ghost predicate Plain(s: string) {
    forall i | 0 <= i < |s| :: 0x20 <= s[i] as int && s[i] != '"' && s[i] != '\\'
  }

  lemma {:induction false} PlainEscapes(s: string)
    requires Plain(s)
    ensures EscapeAll(s) == s
  {
    if s != "" {
      PlainEscapes(s[1..]);
      assert [s[0]] + s[1..] == s;
    }
  }

  /** The literal that introduces a member: a separator, the quoted key and a colon. */
  ghost predicate Introduces(piece: string, separator: string, key: string) {
    Plain(key) && piece == separator + ("\"" + key + "\"" + ":")
  }

  lemma {:induction false} WriteMember(goal: string, r: string, piece: string, key: string, v: Value, more: Members)
    requires goal == r + Rest(Members(key, v, more)) && Introduces(piece, ",", key)
    ensures goal == ((r + piece) + Print(v)) + Rest(more)
  {
    PlainEscapes(key);
    var intro := Quoted(key) + ":";
    RestOf(key, v, more);
    Assoc(intro, Print(v), Rest(more));
    Assoc(",", intro, Print(v) + Rest(more));
    Assoc(r, piece, Print(v) + Rest(more));
    Assoc(r + piece, Print(v), Rest(more));
  }

  lemma {:induction false} RestOf(key: string, v: Value, more: Members)
    ensures Rest(Members(key, v, more)) == "," + (Member(key, Print(v)) + Rest(more))
  {
    var member := Member(key, Print(v));
    if more == NoMember {
      Assoc(",", member, "}");
    } else {
      Assoc(member, ",", PrintMembers(more));
      Assoc(",", member + ("," + PrintMembers(more)), "}");
      Assoc(member, "," + PrintMembers(more), "}");
    }
  }

  lemma {:induction false} WriteFirst(r: string, piece: string, key: string, v: Value, more: Members)
    requires Introduces(piece, "{", key)
    ensures r + Print(Obj(Members(key, v, more))) == ((r + piece) + Print(v)) + Rest(more)
  {
    PlainEscapes(key);
    var intro := Quoted(key) + ":";
    ObjectText(key, v, more);
    Assoc(intro, Print(v), Rest(more));
    Assoc("{", intro, Print(v) + Rest(more));
    Assoc(r, piece, Print(v) + Rest(more));
    Assoc(r + piece, Print(v), Rest(more));
  }

  lemma {:induction false} ObjectText(key: string, v: Value, more: Members)
    ensures Print(Obj(Members(key, v, more))) == "{" + (Member(key, Print(v)) + Rest(more))
  {
    var member := Member(key, Print(v));
    if more == NoMember {
      Assoc("{", member, "}");
    } else {
      Assoc(member, ",", PrintMembers(more));
      Assoc("{", member + ("," + PrintMembers(more)), "}");
      Assoc(member, "," + PrintMembers(more), "}");
    }
  }

  lemma ReadingLabels()
    ensures Introduces("{\"point\":", "{", "point") && Introduces(",\"value\":", ",", "value")
    ensures Introduces(",\"quality\":", ",", "quality") && Introduces(",\"unit\":", ",", "unit")
  {}

  lemma SourceLabel()
    ensures Introduces(",\"source_time_ns\":", ",", "source_time_ns") && Introduces(",\"derived\":", ",", "derived")
  {}

  lemma ReceivedLabel()
    ensures Introduces(",\"received_time_ns\":", ",", "received_time_ns")
  {}

  /** The members of a reading that are not strings. */
  function Stamps(reading: Reading<string>): Members {
    Members("source_time_ns", Int(reading.sourceTime),
    Members("received_time_ns", Int(reading.receivedTime),
    Members("derived", Bool(reading.derived), NoMember)))
  }

  method AppendStamps(output: string, reading: Reading<string>) returns (r: string)
    ensures r == output + Rest(Stamps(reading))
  {
    ghost var m7 := Members("derived", Bool(reading.derived), NoMember);
    ghost var m6 := Members("received_time_ns", Int(reading.receivedTime), m7);
    ghost var goal := output + Rest(Stamps(reading));
    SourceLabel();
    ReceivedLabel();
    WriteMember(goal, output, ",\"source_time_ns\":", "source_time_ns", Int(reading.sourceTime), m6);
    r := output + ",\"source_time_ns\":" + Number(reading.sourceTime);
    WriteMember(goal, r, ",\"received_time_ns\":", "received_time_ns", Int(reading.receivedTime), m7);
    r := r + ",\"received_time_ns\":" + Number(reading.receivedTime);
    WriteMember(goal, r, ",\"derived\":", "derived", Bool(reading.derived), NoMember);
    r := r + ",\"derived\":" + (if reading.derived then "true" else "false") + "}";
  }

  /** One turn of the loop over the readings. */
  method AppendReading(output: string, reading: Reading<string>) returns (r: string)
    ensures r == output + Print(ReadingTree(reading))
  {
    ghost var m4 := Members("unit", Str(reading.unit), Stamps(reading));
    ghost var m3 := Members("quality", Str(QualityName(reading.quality)), m4);
    ghost var m2 := Members("value", ScalarTree(reading.value), m3);
    ghost var goal := output + Print(ReadingTree(reading));

    ReadingLabels();
    WriteFirst(output, "{\"point\":", "point", Str(reading.point), m2);
    r := AppendString(output + "{\"point\":", reading.point);
    WriteMember(goal, r, ",\"value\":", "value", ScalarTree(reading.value), m3);
    r := AppendScalar(r + ",\"value\":", reading.value);
    WriteMember(goal, r, ",\"quality\":", "quality", Str(QualityName(reading.quality)), m4);
    r := AppendString(r + ",\"quality\":", QualityName(reading.quality));
    WriteMember(goal, r, ",\"unit\":", "unit", Str(reading.unit), Stamps(reading));
    r := AppendString(r + ",\"unit\":", reading.unit);
    r := AppendStamps(r, reading);
  }

  method AppendReadings(output: string, readings: seq<Reading<string>>) returns (r: string)
    ensures r == output + PrintItems(ListOf(ReadingTrees(readings)))
  {
    r := output;
    ghost var parts := Printed(ReadingTrees(readings));
    for i := 0 to |readings|
      invariant r == output + Join(parts[..i])
    {
      Listed(output, parts, i);
      if i != 0 {
        r := r + ",";
      }
      r := AppendReading(r, readings[i]);
    }
    assert parts[..|readings|] == parts;
    JoinPrints(ReadingTrees(readings));
  }

  lemma ReadingsText(r: string, items: string)
    ensures (r + ",\"readings\":[") + items + "]}" == ((r + ",\"readings\":") + ("[" + items + "]")) + "}"
  {}

  ghost function ReadingsMember(e: Event<string>): Members {
    Members("readings", Arr(ListOf(ReadingTrees(e.readings))), NoMember)
  }

  method AppendHeader(output: string, e: Event<string>) returns (r: string)
    ensures output + Print(EventTree(e)) == r + Rest(ReadingsMember(e))
  {
    ghost var m5 := ReadingsMember(e);
    ghost var m4 := Members("model_version", Str(e.modelVersion), m5);
    ghost var m3 := Members("source", Str(e.source), m4);
    ghost var m2 := Members("device_id", Str(e.deviceId), m3);
    ghost var goal := output + Print(EventTree(e));

    EventLabels();
    WriteFirst(output, "{\"event_id\":", "event_id", Str(e.eventId), m2);
    r := AppendString(output + "{\"event_id\":", e.eventId);
    WriteMember(goal, r, ",\"device_id\":", "device_id", Str(e.deviceId), m3);
    r := AppendString(r + ",\"device_id\":", e.deviceId);
    WriteMember(goal, r, ",\"source\":", "source", Str(e.source), m4);
    r := AppendString(r + ",\"source\":", e.source);
    WriteMember(goal, r, ",\"model_version\":", "model_version", Str(e.modelVersion), m5);
    r := AppendString(r + ",\"model_version\":", e.modelVersion);
  }

  method AppendEvent(output: string, e: Event<string>) returns (r: string)
    ensures r == output + Print(EventTree(e))
  {
    ghost var items := ListOf(ReadingTrees(e.readings));
    var head := AppendHeader(output, e);
    ReadingsLabel();
    WriteMember(head + Rest(ReadingsMember(e)), head, ",\"readings\":", "readings", Arr(items), NoMember);
    ReadingsText(head, PrintItems(items));
    r := AppendReadings(head + ",\"readings\":[", e.readings);
    r := r + "]}";
  }

  lemma EventLabels()
    ensures Introduces("{\"event_id\":", "{", "event_id") && Introduces(",\"device_id\":", ",", "device_id")
    ensures Introduces(",\"source\":", ",", "source") && Introduces(",\"model_version\":", ",", "model_version")
  {}

  lemma ReadingsLabel()
    ensures Introduces(",\"readings\":", ",", "readings")
  {}

  /** event_to_json: the text it returns reads back as the event, unless the event holds a double. */
  method EventToJson(e: Event<string>) returns (r: string)
    ensures r == Print(EventTree(e))
    ensures Decode(r) == Some(e) <==> NoDoubles(e)
  {
    r := AppendEvent("", e);
    assert "" + Print(EventTree(e)) == Print(EventTree(e));
    EventRoundTrip(e);
  }
}
