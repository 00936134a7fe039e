/** `Date.prototype.toJSON`: a date written as `YYYY-MM-DDTHH:MM:SS` in UTC,
    with no milliseconds and no zone designator. */
module DateJson {
  import opened Options
  import opened Strings

  /** The UTC fields of a date, as `getUTCFullYear()`, `getUTCMonth() + 1`,
      `getUTCDate()`, `getUTCHours()`, `getUTCMinutes()` and
      `getUTCSeconds()` return them. */
  datatype DateTime = DateTime(year: int, month: nat, day: nat, hour: nat, minute: nat, second: nat)

  /** The year, preceded by zeros up to four characters when it is below
      1000. */
  function YearText(year: int): string {
    if year < 1000 then
      "0" + (if year < 100 then "0" + (if year < 10 then "0" else "") else "") + IntToString(year)
    else IntToString(year)
  }

  /** A field preceded by one zero when it is below 10. */
  function TwoText(n: nat): string {
    if n < 10 then "0" + IntToString(n) else IntToString(n)
  }

  /** `toJSON()`. */
  function ToJSON(date: DateTime): string {
    YearText(date.year) + "-" + TwoText(date.month) + "-" + TwoText(date.day) + "T"
    + TwoText(date.hour) + ":" + TwoText(date.minute) + ":" + TwoText(date.second)
  }

  /** The dates whose every field fits its place in the layout. */
  predicate Writable(date: DateTime) {
    0 <= date.year < 10000 && date.month < 100 && date.day < 100
    && date.hour < 100 && date.minute < 100 && date.second < 100
  }

  /** The layout read back: four digits, then five two-digit fields, with
      `-`, `-`, `T`, `:` and `:` between them. */
  function Parse(s: string): Option<DateTime> {
    if |s| == 19 && s[4] == '-' && s[7] == '-' && s[10] == 'T' && s[13] == ':' && s[16] == ':'
       && AllDigits(s[0..4]) && AllDigits(s[5..7]) && AllDigits(s[8..10])
       && AllDigits(s[11..13]) && AllDigits(s[14..16]) && AllDigits(s[17..19])
    then Some(DateTime(DigitsValue(s[0..4]), DigitsValue(s[5..7]), DigitsValue(s[8..10]),
                       DigitsValue(s[11..13]), DigitsValue(s[14..16]), DigitsValue(s[17..19])))
    else None
  }

  /** Six fields joined by the layout's separators. */
  function Join(y: string, mo: string, d: string, h: string, mi: string, se: string): string {
    y + "-" + mo + "-" + d + "T" + h + ":" + mi + ":" + se
  }

  /** The year of a writable date is its numeral padded with zeros to four
      digits. */
  lemma YearPadded(year: int)
    requires 0 <= year < 10000
    ensures YearText(year) == PadLeft(NatToString(year), 4, '0')
  {
    NatToStringShape(year);
    assert Repeat('0', 3) == "000" && Repeat('0', 2) == "00" && Repeat('0', 1) == "0";
  }

  /** A field below 100 is its numeral padded with zeros to two digits. */
  lemma TwoPadded(n: nat)
    requires n < 100
    ensures TwoText(n) == PadLeft(NatToString(n), 2, '0')
  {
    NatToStringShape(n);
    assert Repeat('0', 1) == "0";
  }

  /** The six fields sit at fixed places in their join. */
  lemma JoinSlices(y: string, mo: string, d: string, h: string, mi: string, se: string)
    requires |y| == 4 && |mo| == 2 && |d| == 2 && |h| == 2 && |mi| == 2 && |se| == 2
    ensures var s := Join(y, mo, d, h, mi, se);
      && |s| == 19
      && s[4] == '-' && s[7] == '-' && s[10] == 'T' && s[13] == ':' && s[16] == ':'
      && s[0..4] == y && s[5..7] == mo && s[8..10] == d
      && s[11..13] == h && s[14..16] == mi && s[17..19] == se
  {
    var s := Join(y, mo, d, h, mi, se);
    var p1 := y + "-";
    var p2 := p1 + mo + "-";
    var p3 := p2 + d + "T";
    var p4 := p3 + h + ":";
    var p5 := p4 + mi + ":";
    assert s == p5 + se;
    assert s[..16] == p4 + mi && s[14..16] == (p4 + mi)[14..16] == mi;
    assert s[..13] == p3 + h && s[11..13] == (p3 + h)[11..13] == h;
    assert s[..10] == p2 + d && s[8..10] == (p2 + d)[8..10] == d;
    assert s[..7] == p1 + mo && s[5..7] == (p1 + mo)[5..7] == mo;
    assert s[..4] == y;
  }

  /** Digit runs of the layout's widths, joined, read back as their
      values. */
  lemma JoinReads(y: string, mo: string, d: string, h: string, mi: string, se: string)
    requires |y| == 4 && |mo| == 2 && |d| == 2 && |h| == 2 && |mi| == 2 && |se| == 2
    requires AllDigits(y) && AllDigits(mo) && AllDigits(d)
    requires AllDigits(h) && AllDigits(mi) && AllDigits(se)
    ensures Parse(Join(y, mo, d, h, mi, se))
         == Some(DateTime(DigitsValue(y), DigitsValue(mo), DigitsValue(d),
                          DigitsValue(h), DigitsValue(mi), DigitsValue(se)))
  {
    JoinSlices(y, mo, d, h, mi, se);
  }

  /** Text that reads as a date is its fields joined. */
  lemma ParsedIsJoin(s: string)
    requires Parse(s).Some?
    ensures s == Join(s[0..4], s[5..7], s[8..10], s[11..13], s[14..16], s[17..19])
  {
    JoinSlices(s[0..4], s[5..7], s[8..10], s[11..13], s[14..16], s[17..19]);
    assert s == s[0..4] + [s[4]] + s[5..7] + [s[7]] + s[8..10] + [s[10]] + s[11..13] + [s[13]]
                + s[14..16] + [s[16]] + s[17..19];
  }

  /** A writable date is written as its six zero-padded fields. */
  lemma ToJSONFields(date: DateTime)
    requires Writable(date)
    ensures ToJSON(date)
         == Join(PadLeft(NatToString(date.year), 4, '0'), PadLeft(NatToString(date.month), 2, '0'),
                 PadLeft(NatToString(date.day), 2, '0'), PadLeft(NatToString(date.hour), 2, '0'),
                 PadLeft(NatToString(date.minute), 2, '0'), PadLeft(NatToString(date.second), 2, '0'))
  {
    YearPadded(date.year);
    TwoPadded(date.month);
    TwoPadded(date.day);
    TwoPadded(date.hour);
    TwoPadded(date.minute);
    TwoPadded(date.second);
  }

  /** Every writable date is written in the layout, in nineteen characters,
      and reads back as itself. */
  lemma ToJSONReads(date: DateTime)
    requires Writable(date)
    ensures |ToJSON(date)| == 19
    ensures Parse(ToJSON(date)) == Some(date)
  {
    var y := PadLeft(NatToString(date.year), 4, '0');
    var mo := PadLeft(NatToString(date.month), 2, '0');
    var d := PadLeft(NatToString(date.day), 2, '0');
    var h := PadLeft(NatToString(date.hour), 2, '0');
    var mi := PadLeft(NatToString(date.minute), 2, '0');
    var se := PadLeft(NatToString(date.second), 2, '0');
    ToJSONFields(date);
    assert Pow10(4) == 10000 && Pow10(2) == 100;
    PaddedNumeral(date.year, 4);
    PaddedNumeral(date.month, 2);
    PaddedNumeral(date.day, 2);
    PaddedNumeral(date.hour, 2);
    PaddedNumeral(date.minute, 2);
    PaddedNumeral(date.second, 2);
    JoinReads(y, mo, d, h, mi, se);
    JoinSlices(y, mo, d, h, mi, se);
  }

  /** Every text in the layout is what `toJSON` writes for the date it reads
      as, which is writable: the layout and `toJSON` are in one-to-one
      correspondence. */
  lemma ParseWrites(s: string)
    requires Parse(s).Some?
    ensures Writable(Parse(s).value)
    ensures ToJSON(Parse(s).value) == s
  {
    var date := Parse(s).value;
    FieldPadded(s[0..4], 4);
    FieldPadded(s[5..7], 2);
    FieldPadded(s[8..10], 2);
    FieldPadded(s[11..13], 2);
    FieldPadded(s[14..16], 2);
    FieldPadded(s[17..19], 2);
    ToJSONFields(date);
    ParsedIsJoin(s);
  }

  /** Two writable dates are written the same only when they are the same
      date. */
  lemma ToJSONInjective(a: DateTime, b: DateTime)
    requires Writable(a) && Writable(b) && ToJSON(a) == ToJSON(b)
    ensures a == b
  {
    ToJSONReads(a);
    ToJSONReads(b);
  }
}
