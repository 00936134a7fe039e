/** `JMAP.Duration`: a length of time in whole milliseconds, written in the
    `PnDTnHnMnS` subset of the ISO 8601 duration format. */
module Durations {
  import opened Options
  import opened Strings

  // The units, in milliseconds, are written out as literals below:
  // a second is 1000, a minute 60000, an hour 3600000 and a day 86400000.

  /** The text after the `T`: hours, then minutes (even when zero) and
      seconds when the remainder is over an hour; minutes and seconds when it
      is over a minute; seconds alone otherwise. Smaller units are rounded
      down. */
  function TimeText(r: int): string {
    if r > 3600000 then
      IntToString(r / 3600000) + "H" + IntToString(r % 3600000 / 60000) + "M"
      + IntToString(r % 3600000 % 60000 / 1000) + "S"
    else if r > 60000 then
      IntToString(r / 60000) + "M" + IntToString(r % 60000 / 1000) + "S"
    else IntToString(r / 1000) + "S"
  }

  /** The day count `toJSON` writes: one when the duration is zero or over
      a day, none otherwise. */
  function DayCount(ms: int): Option<int> {
    if ms == 0 || ms > 86400000 then Some(ms / 86400000) else None
  }

  /** What is left for the time part once the days are taken off. */
  function Remainder(ms: int): int {
    if DayCount(ms).Some? then ms % 86400000 else ms
  }

  /** The day part, when there is one. */
  function DayText(days: Option<int>): string {
    if days.Some? then IntToString(days.value) + "D" else ""
  }

  /** The time part, when anything is left. */
  function TimeTail(rest: int): string {
    if rest == 0 then "" else "T" + TimeText(rest)
  }

  /** What `toJSON` writes for `ms`. */
  function Text(ms: int): string {
    "P" + DayText(DayCount(ms)) + TimeTail(Remainder(ms))
  }

  /** `toJSON()`: units are taken off one at a time, from days down. */
  method ToJSON(durationInMS: int) returns (output: string)
    ensures output == Text(durationInMS)
    ensures durationInMS == 0 ==> output == "P0D"
    ensures durationInMS >= 0 ==> FromJSON(output) == durationInMS - durationInMS % 1000
  {
    output := "P";
    var ms := durationInMS;
    var quantity: int;
    // Days. Also encompasses 0 duration.
    if ms == 0 || ms > 86400000 {
      quantity := ms / 86400000;
      output := output + IntToString(quantity) + "D";
      ms := ms - quantity * 86400000;
      assert ms == durationInMS % 86400000;
    }
    assert output == "P" + DayText(DayCount(durationInMS)) && ms == Remainder(durationInMS);
    if ms != 0 {
      var time := TimePart(ms);
      output := output + "T" + time;
    }
    if durationInMS >= 0 {
      TextRoundTrip(durationInMS);
    }
  }

  /** What is left of a duration after whole hours and after whole
      minutes are taken off. */
  lemma TimeArithmetic(r: int)
    ensures r - r / 3600000 * 3600000 == r % 3600000
    ensures r % 3600000 - r % 3600000 / 60000 * 60000 == r % 3600000 % 60000
    ensures r - r / 60000 * 60000 == r % 60000
  {
  }

  /** The `switch ( true )` of `toJSON()`, whose cases fall through from
      hours down to seconds. */
  method TimePart(r: int) returns (output: string)
    ensures output == TimeText(r)
  {
    TimeArithmetic(r);
    output := "";
    var ms := r;
    var quantity: int;
    var fallsThrough := false;
    if ms > 3600000 {
      quantity := ms / 3600000;
      output := output + IntToString(quantity) + "H";
      ms := ms - quantity * 3600000;
      fallsThrough := true;
    }
    assert r > 3600000 ==> output == IntToString(r / 3600000) + "H" && ms == r % 3600000;
    assert r <= 3600000 ==> output == "" && ms == r;
    if fallsThrough || ms > 60000 {
      quantity := ms / 60000;
      output := output + IntToString(quantity) + "M";
      ms := ms - quantity * 60000;
    }
    assert r > 3600000 ==> output == IntToString(r / 3600000) + "H" + IntToString(r % 3600000 / 60000) + "M"
                           && ms == r % 3600000 % 60000;
    assert 60000 < r <= 3600000 ==> output == IntToString(r / 60000) + "M" && ms == r % 60000;
    assert r <= 60000 ==> output == "" && ms == r;
    quantity := ms / 1000;
    output := output + IntToString(quantity) + "S";
  }

  /** The optional group `(?:(\d+)<unit>)?` at the start of `s`: the number
      and the text after the unit letter, or nothing and `s` unchanged. */
  function Group(s: string, unit: char): (Option<nat>, string) {
    var n := DigitRun(s);
    if 0 < n < |s| && s[n] == unit then (Some(DigitsValue(s[..n])), s[n + 1..]) else (None, s)
  }

  /** `/^P(?:(\d+)D)?(?:T(?:(\d+)H)?(?:(\d+)M)?(?:(\d+)S)?)?$/`, each
      group read as `+results[i] || 0`. */
  function Match(value: string): Option<(nat, nat, nat, nat)> {
    if value == [] || value[0] != 'P' then None
    else
      var (d, r1) := Group(value[1..], 'D');
      if r1 == [] then Some((d.GetOr(0), 0, 0, 0))
      else if r1[0] != 'T' then None
      else
        match MatchTime(r1[1..])
        case None => None
        case Some((h, m, s)) => Some((d.GetOr(0), h, m, s))
  }

  /** The part of the pattern after the `T`: `(?:(\d+)H)?(?:(\d+)M)?(?:(\d+)S)?$`. */
  function MatchTime(t: string): Option<(nat, nat, nat)> {
    var (h, r2) := Group(t, 'H');
    var (m, r3) := Group(r2, 'M');
    var (s, r4) := Group(r3, 'S');
    if r4 == [] then Some((h.GetOr(0), m.GetOr(0), s.GetOr(0))) else None
  }

  /** `Duration.fromJSON( value )`: the sum of the units written, or zero for
      text that does not match (the empty string included). */
  function FromJSON(value: string): nat {
    match Match(value)
    case None => 0
    case Some((d, h, m, s)) => d * 86400000 + h * 3600000 + m * 60000 + s * 1000
  }

  /** A numeral followed by a unit letter is read by that unit's group and
      passed over by any other. */
  lemma GroupReads(n: nat, u: char, rest: string, unit: char)
    requires !IsDigit(u)
    ensures Group(NatToString(n) + [u] + rest, unit)
         == if u == unit then (Some(n), rest) else (None, NatToString(n) + [u] + rest)
  {
    var ds := NatToString(n);
    var s := ds + [u] + rest;
    assert s == ds + ([u] + rest);
    DigitRunOf(ds, [u] + rest);
    assert s[..|ds|] == ds && s[|ds|] == u && s[|ds| + 1..] == rest;
    NatToStringValue(n);
  }

  /** Text that does not start with a digit is passed over by every group. */
  lemma GroupSkips(s: string, unit: char)
    requires s == [] || !IsDigit(s[0])
    ensures Group(s, unit) == (None, s)
  {
  }

  /** The hours, minutes and seconds `toJSON` writes for a positive
      remainder `r` of less than a day, zero for those it leaves out. */
  function TimeUnits(r: int): (int, int, int) {
    if r > 3600000 then (r / 3600000, r % 3600000 / 60000, r % 3600000 % 60000 / 1000)
    else if r > 60000 then (0, r / 60000, r % 60000 / 1000)
    else (0, 0, r / 1000)
  }

  /** The units `toJSON` writes add up to the whole seconds of `r`. */
  lemma UnitsSum(r: nat)
    ensures TimeUnits(r).0 * 3600000 + TimeUnits(r).1 * 60000 + TimeUnits(r).2 * 1000 == r - r % 1000
  {
    if r > 3600000 {
      HoursSum(r);
    } else if r > 60000 {
      MinutesSum(r);
    } else {
      SecondsSum(r);
    }
  }

  lemma SecondsSum(r: nat)
    ensures r / 1000 * 1000 == r - r % 1000
  {
  }

  lemma MinutesSum(r: nat)
    ensures r / 60000 * 60000 + r % 60000 / 1000 * 1000 == r - r % 1000
  {
    var m, y := r / 60000, r % 60000;
    var s, z := y / 1000, y % 1000;
    assert r == m * 60000 + y;
    assert y == s * 1000 + z;
    assert r == (m * 60 + s) * 1000 + z;
  }

  lemma HoursSum(r: nat)
    ensures r / 3600000 * 3600000 + r % 3600000 / 60000 * 60000 + r % 3600000 % 60000 / 1000 * 1000
         == r - r % 1000
  {
    var h, x := r / 3600000, r % 3600000;
    MinutesSum(x);
    assert r == h * 3600000 + x;
    assert x == x / 60000 * 60000 + x % 60000 / 1000 * 1000 + x % 1000;
    var z := x % 1000;
    assert r == (h * 3600 + x / 60000 * 60 + x % 60000 / 1000) * 1000 + z;
  }

  /** Hours, minutes and seconds written in turn read back as themselves. */
  lemma HoursReads(h: nat, m: nat, s: nat)
    ensures MatchTime(NatToString(h) + "H" + NatToString(m) + "M" + NatToString(s) + "S") == Some((h, m, s))
  {
    var ts := NatToString(s) + "S";
    var tm := NatToString(m) + "M" + ts;
    RegroupSix(NatToString(h), "H", NatToString(m), "M", NatToString(s), "S");
    GroupReads(h, 'H', tm, 'H');
    assert tm == NatToString(m) + ['M'] + ts;
    GroupReads(m, 'M', ts, 'M');
    assert ts == NatToString(s) + ['S'] + [];
    GroupReads(s, 'S', [], 'S');
  }

  /** Six pieces joined left to right are the first two before the other
      four joined right to left. */
  lemma RegroupSix<T>(a: seq<T>, b: seq<T>, c: seq<T>, d: seq<T>, e: seq<T>, f: seq<T>)
    ensures a + b + c + d + e + f == a + b + (c + d + (e + f))
  {
  }

  /** Minutes and seconds written in turn read back as no hours and
      themselves. */
  lemma MinutesReads(m: nat, s: nat)
    ensures MatchTime(NatToString(m) + "M" + NatToString(s) + "S") == Some((0, m, s))
  {
    var ts := NatToString(s) + "S";
    assert NatToString(m) + "M" + NatToString(s) + "S" == NatToString(m) + ['M'] + ts;
    GroupReads(m, 'M', ts, 'H');
    GroupReads(m, 'M', ts, 'M');
    assert ts == NatToString(s) + ['S'] + [];
    GroupReads(s, 'S', [], 'S');
  }

  /** Seconds alone read back as no hours, no minutes and themselves. */
  lemma SecondsReads(s: nat)
    ensures MatchTime(NatToString(s) + "S") == Some((0, 0, s))
  {
    assert NatToString(s) + "S" == NatToString(s) + ['S'] + [];
    GroupReads(s, 'S', [], 'H');
    GroupReads(s, 'S', [], 'M');
    GroupReads(s, 'S', [], 'S');
  }

  /** Reading back the time part gives the units it was written from. */
  lemma TimeTextReads(r: nat)
    requires 0 < r
    ensures MatchTime(TimeText(r)) == Some((TimeUnits(r).0, TimeUnits(r).1, TimeUnits(r).2))
  {
    if r > 3600000 {
      HoursReads(r / 3600000, r % 3600000 / 60000, r % 3600000 % 60000 / 1000);
    } else if r > 60000 {
      MinutesReads(r / 60000, r % 60000 / 1000);
    } else {
      SecondsReads(r / 1000);
    }
  }

  /** After the day part, an empty tail reads as no time and a `T` tail as
      whatever its time part reads as. */
  lemma DaysRead(days: Option<nat>, tail: string)
    requires tail == [] || tail[0] == 'T'
    ensures tail == [] ==> Match("P" + DayText(days) + tail) == Some((days.GetOr(0), 0, 0, 0))
    ensures tail != [] && MatchTime(tail[1..]).Some? ==>
      var t := MatchTime(tail[1..]).value;
      Match("P" + DayText(days) + tail) == Some((days.GetOr(0), t.0, t.1, t.2))
  {
    var s := DayText(days) + tail;
    assert ("P" + DayText(days) + tail)[1..] == s;
    if days.Some? {
      assert s == NatToString(days.value) + ['D'] + tail by {
        assert DayText(days) == NatToString(days.value) + "D";
      }
      GroupReads(days.value, 'D', tail, 'D');
    } else {
      assert s == tail;
      GroupSkips(tail, 'D');
    }
  }

  /** `fromJSON( toJSON( d ) )` is `d` for every whole-second duration, and
      `d` rounded down to whole seconds for any other non-negative one. */
  lemma TextRoundTrip(ms: nat)
    ensures FromJSON(Text(ms)) == ms - ms % 1000
  {
    var d: Option<nat> := if ms == 0 || ms > 86400000 then Some(ms / 86400000) else None;
    var rest: nat := Remainder(ms);
    assert DayCount(ms) == d;
    assert ms == d.GetOr(0) * 86400000 + rest;
    PartsRead(d, rest);
    var u := TimeUnits(rest);
    FromMatch(Text(ms), d.GetOr(0), u.0, u.1, u.2);
    WholeSeconds(d.GetOr(0), rest);
  }

  /** The value of text that matches is the sum of its units. */
  lemma FromMatch(value: string, d: nat, h: nat, m: nat, s: nat)
    requires Match(value) == Some((d, h, m, s))
    ensures FromJSON(value) == d * 86400000 + h * 3600000 + m * 60000 + s * 1000
  {
  }

  /** A day part and a time part read back as the day count and the units
      of the remainder. */
  lemma PartsRead(d: Option<nat>, rest: nat)
    ensures var u := TimeUnits(rest);
      Match("P" + DayText(d) + TimeTail(rest)) == Some((d.GetOr(0), u.0, u.1, u.2))
  {
    DaysRead(d, TimeTail(rest));
    if rest != 0 {
      assert TimeTail(rest)[1..] == TimeText(rest);
      TimeTextReads(rest);
    }
  }

  /** A day count and a remainder `toJSON` writes add up to the whole
      seconds of the duration. */
  lemma WholeSeconds(d: nat, rest: nat)
    ensures var u := TimeUnits(rest);
      d * 86400000 + u.0 * 3600000 + u.1 * 60000 + u.2 * 1000
      == d * 86400000 + rest - (d * 86400000 + rest) % 1000
  {
    UnitsSum(rest);
    var q, z := rest / 1000, rest % 1000;
    assert d * 86400000 + rest == (d * 86400 + q) * 1000 + z;
  }

  /** Text with no `P`, or with anything the pattern does not allow, is
      worth nothing. */
  lemma UnmatchedIsZero()
    ensures FromJSON("") == 0
    ensures FromJSON("1D") == 0
    ensures FromJSON("P1H") == 0
    ensures FromJSON("PT1S1M") == 0
  {
    GroupReads(1, 'H', [], 'D');
    assert "1H" == NatToString(1) + ['H'] + [];
    assert "1S1M" == NatToString(1) + ['S'] + "1M";
    GroupReads(1, 'S', "1M", 'H');
    GroupReads(1, 'S', "1M", 'M');
    GroupReads(1, 'S', "1M", 'S');
    assert "1M" == NatToString(1) + ['M'] + [];
  }
}
