/** WindowAverageProcessor of src/processor/window_average_processor.cpp against each device's whole history.
    Doubles are reals; parsing a number out of a string is a parameter. */
module Windows {
  import opened Options
  import opened Events

  type Parser = string -> Option<real>

  /** numeric_value of src/core/model.cpp. */
  function Numeric(v: Scalar<real>, parse: Parser): Option<real> {
    match v
    case Integer(n) => Some(n as real)
    case Double(x) => Some(x)
    case Boolean(b) => Some(if b then 1.0 else 0.0)
    case Text(s) => parse(s)
    case Bytes(_) => None
  }

  /** The position of the first reading of that point, or the number of readings. */
  function FirstOf(readings: seq<Reading<real>>, point: string): (i: nat)
    ensures i <= |readings|
    ensures i < |readings| ==> readings[i].point == point
    ensures forall k | 0 <= k < i :: readings[k].point != point
  {
    if readings == [] then 0
    else if readings[0].point == point then 0
    else 1 + FirstOf(readings[1..], point)
  }

  /** The number an event adds to its device's history: its first reading of the point, when good and numeric. */
  function Contribution(e: Event<real>, point: string, parse: Parser): Option<real> {
    var i := FirstOf(e.readings, point);
    if i < |e.readings| && e.readings[i].quality == Good then Numeric(e.readings[i].value, parse) else None
  }

  /** Everything one device has contributed, in order. */
  ghost function History(events: seq<Event<real>>, device: string, point: string, parse: Parser): seq<real> {
    if events == [] then []
    else
      var e := events[|events| - 1];
      var c := Contribution(e, point, parse);
      History(events[..|events| - 1], device, point, parse)
      + if e.deviceId == device && c.Some? then [c.value] else []
  }

  ghost function Last(s: seq<real>, n: nat): (r: seq<real>) {
    if |s| <= n then s else s[|s| - n..]
  }

  ghost function Sum(s: seq<real>): real {
    if s == [] then 0.0 else Sum(s[..|s| - 1]) + s[|s| - 1]
  }

  ghost function Mean(s: seq<real>): real
    requires s != []
  {
    Sum(s) / |s| as real
  }

  /** What the processor owes for the last of these events. */
  ghost function Owed(events: seq<Event<real>>, point: string, window: nat, output: string,
                      parse: Parser): seq<Reading<real>>
    requires events != [] && 0 < window
  {
    var e := events[|events| - 1];
    var h := History(events, e.deviceId, point, parse);
    if Contribution(e, point, parse).Some? && window <= |h| then
      var input := e.readings[FirstOf(e.readings, point)];
      [Reading(output, Double(Mean(Last(h, window))), Good, "", input.sourceTime, input.receivedTime, true)]
    else []
  }

  /** Events of other devices leave a device's history alone. */
  ghost function Only(events: seq<Event<real>>, device: string): seq<Event<real>> {
    if events == [] then []
    else
      var e := events[|events| - 1];
      Only(events[..|events| - 1], device) + if e.deviceId == device then [e] else []
  }

  lemma {:induction false} HistoryOfOwnEvents(events: seq<Event<real>>, device: string, point: string, parse: Parser)
    ensures History(events, device, point, parse) == History(Only(events, device), device, point, parse)
  {
    if events != [] {
      var most, e := events[..|events| - 1], events[|events| - 1];
      assert events == most + [e];
      HistoryOfOwnEvents(most, device, point, parse);
      HistoryGrows(most, e, device, point, parse);
      if e.deviceId == device {
        HistoryGrows(Only(most, device), e, device, point, parse);
      } else {
        assert Only(events, device) == Only(most, device);
      }
    }
  }

  /** What one more event does to a history. */
  lemma {:induction false} HistoryGrows(events: seq<Event<real>>, e: Event<real>, device: string, point: string,
                                        parse: Parser)
    ensures History(events + [e], device, point, parse) ==
            History(events, device, point, parse)
            + (var c := Contribution(e, point, parse); if e.deviceId == device && c.Some? then [c.value] else [])
  {
    assert (events + [e])[..|events|] == events;
  }

  /** What an event adds to its own device's history: nothing without a good reading of the point; otherwise what the
      first such reading counts for, be it an integer, a double, a boolean or the text of a number. */
  lemma {:induction false} WhatCounts(events: seq<Event<real>>, e: Event<real>, i: nat, point: string, parse: Parser)
    requires i < |e.readings| && e.readings[i].point == point && forall k | 0 <= k < i :: e.readings[k].point != point
    ensures var was, now := History(events, e.deviceId, point, parse), History(events + [e], e.deviceId, point, parse);
            if e.readings[i].quality != Good then now == was
            else
              match e.readings[i].value
              case Integer(n) => now == was + [n as real]
              case Double(x) => now == was + [x]
              case Boolean(b) => now == was + [if b then 1.0 else 0.0]
              case Text(s) => now == if parse(s).Some? then was + [parse(s).value] else was
              case Bytes(_) => now == was
  {
    HistoryGrows(events, e, e.deviceId, point, parse);
    var k := FirstOf(e.readings, point);
    assert k == i;
  }

  /** And nothing when the event does not have the point at all. */
  lemma {:induction false} NothingCounts(events: seq<Event<real>>, e: Event<real>, point: string, parse: Parser)
    requires forall k | 0 <= k < |e.readings| :: e.readings[k].point != point
    ensures History(events + [e], e.deviceId, point, parse) == History(events, e.deviceId, point, parse)
  {
    HistoryGrows(events, e, e.deviceId, point, parse);
  }

  /** Once the device has contributed a whole window, the average of the last `window` numbers is owed, stamped with
      the times of the reading that completed it; before that, nothing. */
  lemma {:induction false} WhatIsOwed(events: seq<Event<real>>, i: nat, point: string, window: nat, output: string,
                                      parse: Parser)
    requires events != [] && 0 < window
    requires var e := events[|events| - 1];
             && i < |e.readings| && e.readings[i].point == point
             && (forall k | 0 <= k < i :: e.readings[k].point != point)
             && e.readings[i].quality == Good && Numeric(e.readings[i].value, parse).Some?
    ensures var e := events[|events| - 1];
            var h := History(events, e.deviceId, point, parse);
            Owed(events, point, window, output, parse) ==
            if |h| < window then []
            else [Reading(output, Double(Sum(h[|h| - window..]) / window as real), Good, "", e.readings[i].sourceTime,
                          e.readings[i].receivedTime, true)]
  {
    var e := events[|events| - 1];
    assert FirstOf(e.readings, point) == i;
    var h := History(events, e.deviceId, point, parse);
    assert |h| == window ==> h[|h| - window..] == h;
  }

  /** Each device's window is the last n entries of that device's history. */
  ghost predicate Tracks(windows: map<string, seq<real>>, events: seq<Event<real>>, n: nat, point: string,
                         parse: Parser) {
    && (forall device | device in windows :: windows[device] == Last(History(events, device, point, parse), n))
    && (forall device | device !in windows :: History(events, device, point, parse) == [])
  }

  lemma {:induction false} TracksSkip(windows: map<string, seq<real>>, events: seq<Event<real>>, e: Event<real>,
                                      n: nat, point: string, parse: Parser)
    requires Tracks(windows, events, n, point, parse) && Contribution(e, point, parse).None?
    ensures Tracks(windows, events + [e], n, point, parse)
  {
    forall device
      ensures History(events + [e], device, point, parse) == History(events, device, point, parse)
    {
      HistoryGrows(events, e, device, point, parse);
    }
  }

  lemma {:induction false} TracksPush(windows: map<string, seq<real>>, events: seq<Event<real>>, e: Event<real>,
                                      n: nat, point: string, parse: Parser)
    requires Tracks(windows, events, n, point, parse) && Contribution(e, point, parse).Some? && 0 < n
    ensures var was := if e.deviceId in windows then windows[e.deviceId] else [];
            var now := Last(was + [Contribution(e, point, parse).value], n);
            && Tracks(windows[e.deviceId := now], events + [e], n, point, parse)
            && now == Last(History(events + [e], e.deviceId, point, parse), n)
  {
    LastOfLast(History(events, e.deviceId, point, parse), Contribution(e, point, parse).value, n);
    forall device
      ensures device != e.deviceId
          ==> History(events + [e], device, point, parse) == History(events, device, point, parse)
    {
      HistoryGrows(events, e, device, point, parse);
    }
    HistoryGrows(events, e, e.deviceId, point, parse);
  }

  class WindowAverageProcessor {
    const input: string
    const window: nat
    const output: string
    const parse: Parser
    var windows: map<string, seq<real>>
    ghost var seen: seq<Event<real>>  // every event processed, as it arrived

    ghost predicate Valid() reads this {
      input != "" && output != "" && 0 < window && Tracks(windows, seen, window, input, parse)
    }

    /** The original's constructor throws on an empty name or a zero window. */
    constructor (input: string, window: nat, output: string, parse: Parser)
      requires input != "" && output != "" && 0 < window
      ensures Valid() && seen == []
      ensures this.input == input && this.window == window && this.output == output && this.parse == parse
    {
      this.input, this.window, this.output, this.parse := input, window, output, parse;
      windows, seen := map[], [];
    }

    method FindReading(readings: seq<Reading<real>>, point: string) returns (i: nat)
      ensures i == FirstOf(readings, point)
    {
      i := 0;
      while i < |readings| && readings[i].point != point
        invariant 0 <= i <= |readings|
        invariant forall k | 0 <= k < i :: readings[k].point != point
      {
        i := i + 1;
      }
    }

    method Accumulate(values: seq<real>) returns (sum: real)
      ensures sum == Sum(values)
    {
      sum := 0.0;
      var i := 0;
      while i < |values|
        invariant 0 <= i <= |values| && sum == Sum(values[..i])
      {
        assert values[..i + 1][..i] == values[..i];
        sum := sum + values[i];
        i := i + 1;
      }
      assert values[..i] == values;
    }

    /** push_back, then pop_front down to the window's size. */
    method Slide(values: seq<real>, value: real) returns (r: seq<real>)
      ensures r == Last(values + [value], window)
    {
      r := values + [value];
      while |r| > window
        invariant r == Last(values + [value], |r|)
        invariant |r| <= |values| + 1 && (|r| >= window || r == values + [value])
      {
        r := r[1..];
      }
    }

    /** The processed event is the event with exactly what its device's history owes appended. */
    method Process(event: Event<real>) returns (r: Event<real>)
      requires Valid()
      modifies this
      ensures Valid() && seen == old(seen) + [event]
      ensures r == event.(readings := event.readings + Owed(seen, input, window, output, parse))
    {
      ghost var was := seen;
      seen := seen + [event];
      r := event;
      var i := FindReading(event.readings, input);
      if i == |event.readings| || event.readings[i].quality != Good {
        TracksSkip(windows, was, event, window, input, parse);
        return;
      }
      var value := Numeric(event.readings[i].value, parse);
      if value.None? {
        TracksSkip(windows, was, event, window, input, parse);
        return;
      }
      var values := if event.deviceId in windows then windows[event.deviceId] else [];
      TracksPush(windows, was, event, window, input, parse);
      values := Slide(values, value.value);
      windows := windows[event.deviceId := values];
      if |values| != window {
        return;
      }
      var sum := Accumulate(values);
      var average := Reading(output, Double(sum / |values| as real), Good, "",
                             event.readings[i].sourceTime, event.readings[i].receivedTime, true);
      r := event.(readings := event.readings + [average]);
    }
  }

  /** Sliding the window is sliding the whole history. */
  lemma {:induction false} LastOfLast(h: seq<real>, x: real, n: nat)
    requires 0 < n
    ensures Last(Last(h, n) + [x], n) == Last(h + [x], n)
  {}
}
