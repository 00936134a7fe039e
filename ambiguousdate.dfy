/** `JMAP.AmbiguousDate`: a contact's date in which any of the day, the month
    and the year may be unknown, written `0`; exchanged as `YYYY-MM-DD`. */
module AmbiguousDates {
  import opened Options
  import opened Strings

  datatype AmbiguousDate = AmbiguousDate(day: nat, month: nat, year: nat)

  /** `init( day, month, year )`: each missing or zero part is unknown. */
  function New(day: Option<nat>, month: Option<nat>, year: Option<nat>): AmbiguousDate {
    AmbiguousDate(day.GetOr(0), month.GetOr(0), year.GetOr(0))
  }

  /** `hasValue()`: some part is known. */
  predicate HasValue(date: AmbiguousDate) {
    date.day != 0 || date.month != 0 || date.year != 0
  }

  /** `toJSON()`: `"%'04n-%'02n-%'02n"` of the year, the month and the day,
      each numeral padded on the left with zeros to its width. */
  function ToJSON(date: AmbiguousDate): string {
    PadLeft(NatToString(date.year), 4, '0') + "-" + PadLeft(NatToString(date.month), 2, '0')
    + "-" + PadLeft(NatToString(date.day), 2, '0')
  }

  /** `fromJSON( json )`: `/^(\d{4})-(\d{2})-(\d{2})$/` on `json || ''`,
      the groups read as the year, the month and the day; `null` when it
      does not match. */
  function FromJSON(json: Option<string>): Option<AmbiguousDate> {
    var s := json.GetOr("");
    if |s| == 10 && s[4] == '-' && s[7] == '-'
       && AllDigits(s[0..4]) && AllDigits(s[5..7]) && AllDigits(s[8..10])
    then Some(New(Some(DigitsValue(s[8..10])), Some(DigitsValue(s[5..7])), Some(DigitsValue(s[0..4]))))
    else None
  }

  /** The dates whose parts fit their widths. */
  predicate Writable(date: AmbiguousDate) {
    date.year < 10000 && date.month < 100 && date.day < 100
  }

  /** A date has a value exactly when some part given to `init` was given and
      non-zero. */
  lemma HasValueNew(day: Option<nat>, month: Option<nat>, year: Option<nat>)
    ensures HasValue(New(day, month, year))
        <==> (day.Some? && day.value != 0) || (month.Some? && month.value != 0)
             || (year.Some? && year.value != 0)
  {
  }

  /** The three parts sit at fixed places in the text. */
  lemma PartsAt(y: string, m: string, d: string)
    requires |y| == 4 && |m| == 2 && |d| == 2
    ensures var s := y + "-" + m + "-" + d;
      |s| == 10 && s[4] == '-' && s[7] == '-' && s[0..4] == y && s[5..7] == m && s[8..10] == d
  {
    var s := y + "-" + m + "-" + d;
    assert s[..7] == y + "-" + m && s[5..7] == (y + "-" + m)[5..7] == m;
    assert s[..4] == y;
  }

  /** Digit runs of widths 4, 2 and 2, joined by `-`, read back as their
      values. */
  lemma PartsRead(y: string, m: string, d: string)
    requires |y| == 4 && |m| == 2 && |d| == 2 && AllDigits(y) && AllDigits(m) && AllDigits(d)
    ensures FromJSON(Some(y + "-" + m + "-" + d))
         == Some(AmbiguousDate(DigitsValue(d), DigitsValue(m), DigitsValue(y)))
  {
    PartsAt(y, m, d);
  }

  /** A date whose parts fit their widths is written in ten characters and
      reads back as itself. */
  lemma ToJSONReads(date: AmbiguousDate)
    requires Writable(date)
    ensures |ToJSON(date)| == 10
    ensures FromJSON(Some(ToJSON(date))) == Some(date)
  {
    var y := PadLeft(NatToString(date.year), 4, '0');
    var m := PadLeft(NatToString(date.month), 2, '0');
    var d := PadLeft(NatToString(date.day), 2, '0');
    assert Pow10(4) == 10000 && Pow10(2) == 100;
    PaddedNumeral(date.year, 4);
    PaddedNumeral(date.month, 2);
    PaddedNumeral(date.day, 2);
    assert ToJSON(date) == y + "-" + m + "-" + d;
    PartsRead(y, m, d);
  }

  /** Every text `fromJSON` accepts is what `toJSON` writes for the date it
      reads as, whose parts fit their widths. */
  lemma FromJSONWrites(s: string)
    requires FromJSON(Some(s)).Some?
    ensures Writable(FromJSON(Some(s)).value)
    ensures ToJSON(FromJSON(Some(s)).value) == s
  {
    FieldPadded(s[0..4], 4);
    FieldPadded(s[5..7], 2);
    FieldPadded(s[8..10], 2);
    assert s == s[0..4] + "-" + s[5..7] + "-" + s[8..10];
  }

  /** No text gives no date, and neither does the empty text. */
  lemma FromNothing()
    ensures FromJSON(None) == None
    ensures FromJSON(Some("")) == None
  {
  }

  /** The wholly unknown date is written `0000-00-00`, which reads back as a
      date without a value. */
  lemma UnknownDate()
    ensures ToJSON(AmbiguousDate(0, 0, 0)) == "0000-00-00"
    ensures FromJSON(Some("0000-00-00")) == Some(AmbiguousDate(0, 0, 0))
    ensures !HasValue(AmbiguousDate(0, 0, 0))
  {
    ToJSONReads(AmbiguousDate(0, 0, 0));
    assert Repeat('0', 3) == "000" && Repeat('0', 1) == "0";
  }

  /** A year of five or more digits is written in full, and that text is not
      read back. */
  lemma LongYearUnread(date: AmbiguousDate)
    requires date.year >= 10000
    ensures |ToJSON(date)| > 10
    ensures FromJSON(Some(ToJSON(date))) == None
  {
    NatToStringShape(date.year);
  }
}
