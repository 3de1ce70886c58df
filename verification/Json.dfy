/** JSON texts at byte level: a printer that emits no whitespace, and a reader for the grammar of RFC 8259
    (values, objects, arrays, numbers and strings, sections 2 to 7). A `char` stands for one byte. */
module Json {
  datatype Value =
    | Null
    | Bool(b: bool)
    | Int(n: int)
    | Decimal(token: string)      // a number with a fraction or an exponent, kept as written
    | Str(text: string)
    | Arr(items: Values)
    | Obj(members: Members)

  datatype Values = NoValue | Values(head: Value, tail: Values)

  datatype Members = NoMember | Members(key: string, value: Value, rest: Members)

  // ----- printing -----

  const HEX := "0123456789abcdef"

  function Escape(c: char): string {
    if c == '"' then "\\\""
    else if c == '\\' then "\\\\"
    else if c as int == 8 then "\\b"
    else if c as int == 12 then "\\f"
    else if c == '\n' then "\\n"
    else if c == '\r' then "\\r"
    else if c == '\t' then "\\t"
    else if c as int < 0x20 then "\\u00" + [HEX[c as int / 16], HEX[c as int % 16]]
    else [c]
  }

  function EscapeAll(s: string): string {
    if s == "" then "" else Escape(s[0]) + EscapeAll(s[1..])
  }

  function Quoted(s: string): string {
    "\"" + EscapeAll(s) + "\""
  }

  function Digits(n: nat): (s: string) {
    if n < 10 then [HEX[n]] else Digits(n / 10) + [HEX[n % 10]]
  }

  function Number(n: int): string {
    if n < 0 then "-" + Digits(-n) else Digits(n)
  }

  function Print(v: Value): string {
    match v
    case Null => "null"
    case Bool(b) => if b then "true" else "false"
    case Int(n) => Number(n)
    case Decimal(token) => token
    case Str(s) => Quoted(s)
    case Arr(items) => "[" + PrintItems(items) + "]"
    case Obj(members) => "{" + PrintMembers(members) + "}"
  }

  function PrintItems(vs: Values): string {
    match vs
    case NoValue => ""
    case Values(v, NoValue) => Print(v)
    case Values(v, more) => Print(v) + "," + PrintItems(more)
  }

  function Member(key: string, printed: string): string {
    Quoted(key) + ":" + printed
  }

  function PrintMembers(ms: Members): string {
    match ms
    case NoMember => ""
    case Members(k, v, NoMember) => Member(k, Print(v))
    case Members(k, v, more) => Member(k, Print(v)) + "," + PrintMembers(more)
  }

  // ----- reading -----

  /** What reading from the front of a text gives: a value and the rest of the text. */
  datatype Read<+T> = Bad | Got(value: T, rest: string)

  predicate IsSpace(c: char) {
    c == ' ' || c == '\t' || c == '\n' || c == '\r'
  }

  function Skip(s: string): (r: string)
    ensures |r| <= |s|
  {
    if s != "" && IsSpace(s[0]) then Skip(s[1..]) else s
  }

  predicate IsDigit(c: char) {
    '0' <= c <= '9'
  }

  function DigitValue(c: char): nat
    requires IsDigit(c)
  {
    c as int - '0' as int
  }

  function HexValue(c: char): Read<nat> {
    if IsDigit(c) then Got(DigitValue(c), "")
    else if 'a' <= c <= 'f' then Got(c as int - 'a' as int + 10, "")
    else if 'A' <= c <= 'F' then Got(c as int - 'A' as int + 10, "")
    else Bad
  }

  /** The four hexadecimal digits of a \u escape. */
  function ReadHex4(s: string): (r: Read<nat>)
    ensures r.Got? ==> |r.rest| < |s| && r.value < 0x10000
  {
    if |s| < 4 then Bad
    else match (HexValue(s[0]), HexValue(s[1]), HexValue(s[2]), HexValue(s[3]))
      case (Got(a, _), Got(b, _), Got(c, _), Got(d, _)) =>
        if a < 16 && b < 16 && c < 16 && d < 16 then Got(0x1000 * a + 0x100 * b + 0x10 * c + d, s[4..]) else Bad
      case _ => Bad
  }

  /** The UTF-8 bytes of a code point. */
  function Utf8(u: nat): string
    requires u < 0x110000
  {
    if u < 0x80 then [u as char]
    else if u < 0x800 then [(0xC0 + u / 0x40) as char, (0x80 + u % 0x40) as char]
    else if u < 0x10000 then
      [(0xE0 + u / 0x1000) as char, (0x80 + u / 0x40 % 0x40) as char, (0x80 + u % 0x40) as char]
    else
      [(0xF0 + u / 0x40000) as char, (0x80 + u / 0x1000 % 0x40) as char,
       (0x80 + u / 0x40 % 0x40) as char, (0x80 + u % 0x40) as char]
  }

  /** A \u escape after its 'u': one code unit, or a surrogate pair written as two escapes. */
  function ReadUnicode(s: string): (r: Read<string>)
    ensures r.Got? ==> |r.rest| < |s|
  {
    match ReadHex4(s)
    case Bad => Bad
    case Got(u, rest) =>
      if u < 0xD800 || 0xE000 <= u then Got(Utf8(u), rest)
      else if 0xDC00 <= u || |rest| < 2 || rest[0] != '\\' || rest[1] != 'u' then Bad
      else match ReadHex4(rest[2..])
        case Bad => Bad
        case Got(low, rest') =>
          if 0xDC00 <= low < 0xE000 then Got(Utf8(0x10000 + (u - 0xD800) * 0x400 + (low - 0xDC00)), rest') else Bad
  }

  /** An escape after its backslash. */
  function ReadEscape(s: string): (r: Read<string>)
    ensures r.Got? ==> |r.rest| < |s|
  {
    if s == "" then Bad
    else match s[0]
      case '"' => Got("\"", s[1..])
      case '\\' => Got("\\", s[1..])
      case '/' => Got("/", s[1..])
      case 'b' => Got([8 as char], s[1..])
      case 'f' => Got([12 as char], s[1..])
      case 'n' => Got("\n", s[1..])
      case 'r' => Got("\r", s[1..])
      case 't' => Got("\t", s[1..])
      case 'u' => ReadUnicode(s[1..])
      case _ => Bad
  }

  /** The rest of a string after its opening quotation mark. */
  function ReadText(s: string): (r: Read<string>)
    ensures r.Got? ==> |r.rest| < |s|
    decreases |s|
  {
    if s == "" then Bad
    else if s[0] == '"' then Got("", s[1..])
    else if s[0] as int < 0x20 then Bad
    else if s[0] == '\\' then
      match ReadEscape(s[1..])
      case Bad => Bad
      case Got(e, rest) =>
        match ReadText(rest)
        case Bad => Bad
        case Got(t, rest') => Got(e + t, rest')
    else match ReadText(s[1..])
      case Bad => Bad
      case Got(t, rest) => Got([s[0]] + t, rest)
  }

  function ReadString(s: string): (r: Read<string>)
    ensures r.Got? ==> |r.rest| < |s|
  {
    if s != "" && s[0] == '"' then ReadText(s[1..]) else Bad
  }

  /** The longest run of digits at the front, its value on top of `acc`. */
  function ReadDigits(s: string, acc: nat): (r: (nat, string))
    ensures |r.1| <= |s|
  {
    if s != "" && IsDigit(s[0]) then ReadDigits(s[1..], 10 * acc + DigitValue(s[0])) else (acc, s)
  }

  /** A fraction and an exponent, if any; what remains. */
  function SkipFraction(s: string): (r: Read<bool>)
    ensures r.Got? ==> |r.rest| <= |s|
  {
    if s != "" && s[0] == '.' then
      if |s| < 2 || !IsDigit(s[1]) then Bad
      else match SkipExponent(ReadDigits(s[1..], 0).1)
        case Bad => Bad
        case Got(_, rest) => Got(true, rest)
    else SkipExponent(s)
  }

  function SkipExponent(s: string): (r: Read<bool>)
    ensures r.Got? ==> |r.rest| <= |s|
  {
    if s != "" && (s[0] == 'e' || s[0] == 'E') then
      var t := if |s| > 1 && (s[1] == '+' || s[1] == '-') then s[2..] else s[1..];
      if t == "" || !IsDigit(t[0]) then Bad else Got(true, ReadDigits(t, 0).1)
    else Got(false, s)
  }

  function ReadNumber(s: string): (r: Read<Value>)
    ensures r.Got? ==> |r.rest| < |s|
  {
    var body := if s != "" && s[0] == '-' then s[1..] else s;
    if body == "" || !IsDigit(body[0]) || (body[0] == '0' && |body| > 1 && IsDigit(body[1])) then Bad
    else
      var (n, after) := ReadDigits(body, 0);
      match SkipFraction(after)
      case Bad => Bad
      case Got(true, rest) => if |rest| < |s| then Got(Decimal(s[..|s| - |rest|]), rest) else Bad
      case Got(false, rest) => if |rest| < |s| then Got(if s[0] == '-' then Int(0 - n) else Int(n), rest) else Bad
  }

  function ReadValue(s: string): (r: Read<Value>)
    ensures r.Got? ==> |r.rest| < |s|
    decreases |s|, 2
  {
    if s == "" then Bad
    else if IsSpace(s[0]) then ReadValue(s[1..])
    else if s[0] == '"' then
      match ReadString(s)
      case Bad => Bad
      case Got(t, rest) => Got(Str(t), rest)
    else if s[0] == '[' then
      var t := Skip(s[1..]);
      if t != "" && t[0] == ']' then Got(Arr(NoValue), t[1..])
      else match ReadItems(s[1..])
        case Bad => Bad
        case Got(vs, rest) => Got(Arr(vs), rest)
    else if s[0] == '{' then
      var t := Skip(s[1..]);
      if t != "" && t[0] == '}' then Got(Obj(NoMember), t[1..])
      else match ReadMembers(s[1..])
        case Bad => Bad
        case Got(ms, rest) => Got(Obj(ms), rest)
    else if "null" <= s then Got(Null, s[4..])
    else if "true" <= s then Got(Bool(true), s[4..])
    else if "false" <= s then Got(Bool(false), s[5..])
    else ReadNumber(s)
  }

  /** One or more values separated by commas, up to and including the closing bracket. */
  function ReadItems(s: string): (r: Read<Values>)
    ensures r.Got? ==> |r.rest| < |s|
    decreases |s|, 3
  {
    match ReadValue(s)
    case Bad => Bad
    case Got(v, rest) =>
      var t := Skip(rest);
      if t == "" then Bad
      else if t[0] == ']' then Got(Values(v, NoValue), t[1..])
      else if t[0] != ',' then Bad
      else match ReadItems(t[1..])
        case Bad => Bad
        case Got(vs, rest') => Got(Values(v, vs), rest')
  }

  /** One or more members separated by commas, up to and including the closing brace. */
  function ReadMembers(s: string): (r: Read<Members>)
    ensures r.Got? ==> |r.rest| < |s|
    decreases |s|, 3
  {
    match ReadString(Skip(s))
    case Bad => Bad
    case Got(key, rest) =>
      var t := Skip(rest);
      if t == "" || t[0] != ':' then Bad
      else match ReadValue(t[1..])
        case Bad => Bad
        case Got(v, rest') =>
          var t' := Skip(rest');
          if t' == "" then Bad
          else if t'[0] == '}' then Got(Members(key, v, NoMember), t'[1..])
          else if t'[0] != ',' then Bad
          else match ReadMembers(t'[1..])
            case Bad => Bad
            case Got(ms, rest'') => Got(Members(key, v, ms), rest'')
  }

  /** A whole text: one value, and nothing but whitespace around it. */
  function Parse(s: string): Read<Value> {
    match ReadValue(s)
    case Bad => Bad
    case Got(v, rest) => if Skip(rest) == "" then Got(v, "") else Bad
  }
}

/** Reading undoes printing, and every printed value marks its own end. */
module JsonRoundTrip {
  import opened Json

  // ----- the standard's names -----

  /** The two-character escapes of section 7. */
  lemma {:induction false} StandardEscapes(c: char, rest: string)
    ensures ReadEscape([c] + rest) ==
            if c == '"' || c == '\\' || c == '/' then Got([c], rest)
            else if c == 'b' then Got([8 as char], rest) else if c == 'f' then Got([12 as char], rest)
            else if c == 'n' then Got([10 as char], rest) else if c == 'r' then Got([13 as char], rest)
            else if c == 't' then Got([9 as char], rest)
            else if c == 'u' then ReadUnicode(rest) else Bad
  {
    assert ([c] + rest)[1..] == rest;
  }

  /** The three literal names of section 3. */
  lemma {:induction false} StandardNames(rest: string)
    ensures ReadValue("null" + rest) == Got(Null, rest)
    ensures ReadValue("true" + rest) == Got(Bool(true), rest) && ReadValue("false" + rest) == Got(Bool(false), rest)
  {
    assert ("null" + rest)[4..] == rest && ("true" + rest)[4..] == rest && ("false" + rest)[5..] == rest;
    assert "null" <= "null" + rest && "true" <= "true" + rest && "false" <= "false" + rest;
    assert ("true" + rest)[0] == 't' && ("false" + rest)[0] == 'f' && ("null" + rest)[0] == 'n';
  }

  // ----- strings -----

  lemma HexDigit(d: nat)
    requires d < 16
    ensures HexValue(HEX[d]) == Got(d, "")
  {}

  lemma {:induction false} ControlReads(c: char, tail: string)
    requires c as int < 0x20
    ensures ReadEscape(['u', '0', '0', HEX[c as int / 16], HEX[c as int % 16]] + tail) == Got([c], tail)
  {
    var hex := ['0', '0', HEX[c as int / 16], HEX[c as int % 16]];
    assert (['u', '0', '0', HEX[c as int / 16], HEX[c as int % 16]] + tail)[1..] == hex + tail;
    HexDigit(c as int / 16);
    HexDigit(c as int % 16);
    assert (hex + tail)[4..] == tail;
  }

  lemma {:induction false} PairReads(c: char, tail: string)
    requires |Escape(c)| == 2
    ensures ReadEscape([Escape(c)[1]] + tail) == Got([c], tail)
  {
    assert ([Escape(c)[1]] + tail)[1..] == tail;
  }

  /** An escaped character in front of a text reads as that character. */
  lemma {:induction false} EscapeReads(c: char, tail: string)
    requires ReadText(tail).Got?
    ensures ReadText(Escape(c) + tail) == Got([c] + ReadText(tail).value, ReadText(tail).rest)
  {
    var e := Escape(c);
    var s := e + tail;
    assert s[1..] == e[1..] + tail;
    if |e| == 6 {
      assert e[1..] == ['u', '0', '0', HEX[c as int / 16], HEX[c as int % 16]];
      ControlReads(c, tail);
    } else if |e| == 2 {
      assert e[1..] == [e[1]];
      PairReads(c, tail);
    } else {
      assert e == [c] && s[1..] == tail;
    }
  }

  lemma {:induction false} TextReads(s: string, rest: string)
    ensures ReadText(EscapeAll(s) + "\"" + rest) == Got(s, rest)
  {
    if s == "" {
      assert EscapeAll(s) + "\"" + rest == "\"" + rest;
    } else {
      TextReads(s[1..], rest);
      var tail := EscapeAll(s[1..]) + "\"" + rest;
      EscapeReads(s[0], tail);
      assert EscapeAll(s) + "\"" + rest == Escape(s[0]) + tail;
      assert [s[0]] + s[1..] == s;
    }
  }

  lemma {:induction false} QuotedText(s: string, rest: string)
    ensures Quoted(s) + rest == "\"" + (EscapeAll(s) + "\"" + rest)
  {}

  lemma {:induction false} OpenedReads(text: string)
    ensures ReadString("\"" + text) == ReadText(text)
  {
    assert ("\"" + text)[1..] == text;
  }

  /** Encoded strings are self-delimiting: whatever follows, the reader stops at the closing quote. */
  lemma {:induction false} StringReads(s: string, rest: string)
    ensures ReadString(Quoted(s) + rest) == Got(s, rest)
  {
    TextReads(s, rest);
    QuotedText(s, rest);
    OpenedReads(EscapeAll(s) + "\"" + rest);
  }

  // ----- numbers -----

  lemma DigitOf(d: nat)
    requires d < 10
    ensures IsDigit(HEX[d]) && DigitValue(HEX[d]) == d && (HEX[d] == '0' <==> d == 0)
  {}

  lemma {:induction false} DigitsRead(n: nat, rest: string)
    ensures ReadDigits(Digits(n) + rest, 0) == ReadDigits(rest, n)
  {
    DigitOf(n % 10);
    if n < 10 {
      assert (Digits(n) + rest)[1..] == rest;
    } else {
      var d := [HEX[n % 10]];
      assert Digits(n) + rest == Digits(n / 10) + (d + rest);
      DigitsRead(n / 10, d + rest);
      assert (d + rest)[1..] == rest;
    }
  }

  lemma {:induction false} DigitsShape(n: nat)
    ensures Digits(n) != "" && IsDigit(Digits(n)[0]) && (Digits(n)[0] == '0' ==> n == 0)
    ensures n == 0 ==> Digits(n) == "0"
  {
    DigitOf(n % 10);
    if n >= 10 {
      DigitsShape(n / 10);
    }
  }

  /** What may follow a number so that its end is unmistakable. */
  ghost predicate Ends(rest: string) {
    rest == "" || !(IsDigit(rest[0]) || rest[0] in {'.', 'e', 'E'})
  }

  /** A run of digits without a leading zero, alone and after a minus sign. */
  lemma {:induction false} BodyReads(body: string, m: nat, rest: string)
    requires body != "" && IsDigit(body[0]) && !(body[0] == '0' && |body| > 1 && IsDigit(body[1]))
    requires ReadDigits(body, 0) == (m, rest) && |rest| < |body| && Ends(rest)
    ensures ReadNumber(body) == Got(Int(m), rest)
    ensures ReadNumber("-" + body) == Got(Int(0 - m), rest)
  {
    assert ("-" + body)[1..] == body;
  }

  lemma {:induction false} DigitsStand(m: nat, rest: string)
    requires Ends(rest)
    ensures var body := Digits(m) + rest;
            && body != "" && IsDigit(body[0]) && !(body[0] == '0' && |body| > 1 && IsDigit(body[1]))
            && ReadDigits(body, 0) == (m, rest) && |rest| < |body|
  {
    DigitsShape(m);
    DigitsRead(m, rest);
    if m == 0 {
      assert Digits(m) + rest == "0" + rest;
    }
  }

  lemma MinusText(digits: string, rest: string)
    ensures ("-" + digits) + rest == "-" + (digits + rest)
  {}

  lemma {:induction false} NumberReads(n: int, rest: string)
    requires Ends(rest)
    ensures ReadNumber(Number(n) + rest) == Got(Int(n), rest)
  {
    var m := if n < 0 then -n else n;
    DigitsStand(m, rest);
    BodyReads(Digits(m) + rest, m, rest);
    if n < 0 {
      MinusText(Digits(m), rest);
    }
  }

  // ----- values -----

  /** Trees whose numbers are all integers. */
  ghost predicate Exact(v: Value) {
    match v
    case Decimal(_) => false
    case Arr(items) => ExactItems(items)
    case Obj(members) => ExactMembers(members)
    case _ => true
  }

  ghost predicate ExactItems(vs: Values) {
    vs.Values? ==> Exact(vs.head) && ExactItems(vs.tail)
  }

  ghost predicate ExactMembers(ms: Members) {
    ms.Members? ==> Exact(ms.value) && ExactMembers(ms.rest)
  }

  lemma {:induction false} FirstChar(v: Value)
    requires Exact(v)
    ensures Print(v) != "" && !IsSpace(Print(v)[0]) && Print(v)[0] !in {']', '}', ','}
    ensures v.Int? ==> IsDigit(Print(v)[0]) || Print(v)[0] == '-'
  {
    if v.Int? {
      DigitsShape(if v.n < 0 then -v.n else v.n);
    }
  }

  lemma {:induction false} LiteralReads(v: Value, rest: string)
    requires v.Null? || v.Bool?
    ensures ReadValue(Print(v) + rest) == Got(v, rest)
  {
    var s := Print(v) + rest;
    assert s[|Print(v)|..] == rest && s[..|Print(v)|] == Print(v);
    assert Print(v) <= s;
  }

  lemma {:induction false} LeafReads(v: Value, rest: string)
    requires v.Str? || (v.Int? && Ends(rest))
    ensures ReadValue(Print(v) + rest) == Got(v, rest)
  {
    FirstChar(v);
    if v.Int? {
      NumberReads(v.n, rest);
    } else {
      StringReads(v.text, rest);
    }
  }

  /** Reading a printed value gives the value back and leaves exactly what followed it. */
  lemma {:induction false} ValueReads(v: Value, rest: string)
    requires Exact(v) && (v.Int? ==> Ends(rest))
    ensures ReadValue(Print(v) + rest) == Got(v, rest)
    decreases v
  {
    match v
    case Null => LiteralReads(v, rest);
    case Bool(_) => LiteralReads(v, rest);
    case Int(_) => LeafReads(v, rest);
    case Str(_) => LeafReads(v, rest);
    case Arr(items) => ArrayReads(items, rest);
    case Obj(members) => ObjectReads(members, rest);
  }

  lemma {:induction false} ArrayReads(items: Values, rest: string)
    requires ExactItems(items)
    ensures ReadValue("[" + PrintItems(items) + "]" + rest) == Got(Arr(items), rest)
    decreases items, 1
  {
    var s := "[" + PrintItems(items) + "]" + rest;
    var body := PrintItems(items) + "]" + rest;
    assert s[1..] == body;
    if items.Values? {
      FirstChar(items.head);
      ItemsRead(items, rest);
      assert body[0] == Print(items.head)[0];
    } else {
      assert body == "]" + rest;
    }
  }

  lemma {:induction false} MembersFirst(ms: Members)
    requires ms.Members?
    ensures PrintMembers(ms) != "" && PrintMembers(ms)[0] == '"'
  {
    assert Quoted(ms.key)[0] == '"';
  }

  /** An opening brace: an object without members, or the members that follow. */
  lemma {:induction false} OpenedObject(body: string)
    requires body != "" && !IsSpace(body[0])
    ensures body[0] == '}' ==> ReadValue("{" + body) == Got(Obj(NoMember), body[1..])
    ensures body[0] != '}' && ReadMembers(body).Got?
            ==> ReadValue("{" + body) == Got(Obj(ReadMembers(body).value), ReadMembers(body).rest)
  {
    assert ("{" + body)[1..] == body;
  }

  lemma {:induction false} ObjectReads(members: Members, rest: string)
    requires ExactMembers(members)
    ensures ReadValue("{" + PrintMembers(members) + "}" + rest) == Got(Obj(members), rest)
    decreases members, 1
  {
    var body := PrintMembers(members) + "}" + rest;
    assert "{" + PrintMembers(members) + "}" + rest == "{" + body;
    if members.Members? {
      MembersRead(members, rest);
      MembersFirst(members);
    } else {
      assert body == "}" + rest;
    }
    OpenedObject(body);
  }

  lemma {:induction false} ItemsRead(vs: Values, rest: string)
    requires ExactItems(vs) && vs.Values?
    ensures ReadItems(PrintItems(vs) + "]" + rest) == Got(vs, rest)
    decreases vs, 0
  {
    var s := PrintItems(vs) + "]" + rest;
    if vs.tail == NoValue {
      assert s == Print(vs.head) + ("]" + rest);
      ValueReads(vs.head, "]" + rest);
    } else {
      var tail := PrintItems(vs.tail) + "]" + rest;
      assert s == Print(vs.head) + ("," + tail);
      ValueReads(vs.head, "," + tail);
      assert ("," + tail)[1..] == tail;
      ItemsRead(vs.tail, rest);
    }
  }

  /** One member: its key, a colon, its value, and the delimiter that decides how to go on. */
  lemma {:induction false} MemberReads(s: string, key: string, value: string, v: Value, tail: string)
    requires s != "" && !IsSpace(s[0]) && ReadString(s) == Got(key, ":" + value) && ReadValue(value) == Got(v, tail)
    requires tail != "" && (tail[0] == '}' || tail[0] == ',')
    ensures tail[0] == '}' ==> ReadMembers(s) == Got(Members(key, v, NoMember), tail[1..])
    ensures tail[0] == ',' && ReadMembers(tail[1..]).Got?
            ==> ReadMembers(s) == Got(Members(key, v, ReadMembers(tail[1..]).value), ReadMembers(tail[1..]).rest)
  {
    assert (":" + value)[1..] == value;
  }

  /** A printed member list followed by its bracket, as key, colon, value and what comes next. */
  lemma {:induction false} MembersText(ms: Members, rest: string, tail: string)
    requires ms.Members?
    requires tail == if ms.rest == NoMember then "}" + rest else "," + (PrintMembers(ms.rest) + "}" + rest)
    ensures PrintMembers(ms) + "}" + rest == Quoted(ms.key) + (":" + (Print(ms.value) + tail))
  {
    if ms.rest == NoMember {
      LastText(Quoted(ms.key), Print(ms.value), rest);
    } else {
      MoreText(Quoted(ms.key), Print(ms.value), PrintMembers(ms.rest), rest);
    }
  }

  lemma LastText(key: string, value: string, rest: string)
    ensures ((key + ":") + value) + "}" + rest == key + (":" + (value + ("}" + rest)))
  {}

  lemma MoreText(key: string, value: string, more: string, rest: string)
    ensures (((key + ":") + value) + "," + more) + "}" + rest == key + (":" + (value + ("," + (more + "}" + rest))))
  {}

  lemma {:induction false} MembersRead(ms: Members, rest: string)
    requires ExactMembers(ms) && ms.Members?
    ensures ReadMembers(PrintMembers(ms) + "}" + rest) == Got(ms, rest)
    decreases ms, 0
  {
    var s := PrintMembers(ms) + "}" + rest;
    var more := PrintMembers(ms.rest) + "}" + rest;
    var tail := if ms.rest == NoMember then "}" + rest else "," + more;
    var value := Print(ms.value) + tail;
    MembersText(ms, rest, tail);
    StringReads(ms.key, ":" + value);
    ValueReads(ms.value, tail);
    MemberReads(s, ms.key, value, ms.value, tail);
    if ms.rest == NoMember {
      assert tail[1..] == rest;
    } else {
      assert tail[1..] == more;
      MembersRead(ms.rest, rest);
    }
  }

  /** Parsing a printed tree gives the tree back. */
  lemma RoundTrip(v: Value)
    requires Exact(v)
    ensures Parse(Print(v)) == Got(v, "")
  {
    ValueReads(v, "");
    assert Print(v) + "" == Print(v);
  }
}
