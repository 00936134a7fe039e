/** Decimal text of numbers, as JavaScript's `'' + n` and `+s` produce and read
    it, and left padding. Strings are sequences of `char`. */
module Strings {
  import opened Options

  predicate IsDigit(c: char) {
    '0' <= c <= '9'
  }

  predicate AllDigits(s: string) {
    forall i :: 0 <= i < |s| ==> IsDigit(s[i])
  }

  function DigitChar(d: nat): (c: char)
    requires d < 10
    ensures IsDigit(c) && c as int - '0' as int == d
  {
    ('0' as int + d) as char
  }

  function DigitValue(c: char): nat
    requires IsDigit(c)
  {
    c as int - '0' as int
  }

  /** The value of a run of decimal digits, most significant first. */
  function DigitsValue(s: string): nat
    requires AllDigits(s)
  {
    if s == [] then 0 else DigitsValue(s[..|s| - 1]) * 10 + DigitValue(s[|s| - 1])
  }

  /** `'' + n` for a non-negative integer: the shortest decimal numeral. */
  function NatToString(n: nat): (s: string)
    ensures |s| >= 1 && AllDigits(s)
  {
    if n < 10 then [DigitChar(n)] else NatToString(n / 10) + [DigitChar(n % 10)]
  }

  /** The numeral has no leading zero, and its length is its number of
      digits (up to four). */
  lemma {:induction false} NatToStringShape(n: nat)
    ensures var s := NatToString(n);
      && (s[0] == '0' ==> n == 0)
      && (n < 10 <==> |s| == 1)
      && (10 <= n < 100 <==> |s| == 2)
      && (100 <= n < 1000 <==> |s| == 3)
      && (1000 <= n < 10000 <==> |s| == 4)
  {
    if n >= 10 {
      NatToStringShape(n / 10);
    }
  }

  /** `'' + i` for any integer. */
  function IntToString(i: int): (s: string)
    ensures i >= 0 ==> s == NatToString(i)
    ensures i < 0 ==> |s| >= 2 && s[0] == '-'
  {
    if i < 0 then "-" + NatToString(-i) else NatToString(i)
  }

  lemma {:induction false} NatToStringValue(n: nat)
    ensures DigitsValue(NatToString(n)) == n
  {
    if n >= 10 {
      var s := NatToString(n);
      assert s[..|s| - 1] == NatToString(n / 10);
      NatToStringValue(n / 10);
    }
  }

  /** Reading back a numeral gives the number it was printed from. */
  lemma NatToStringInjective(a: nat, b: nat)
    requires NatToString(a) == NatToString(b)
    ensures a == b
  {
    NatToStringValue(a);
    NatToStringValue(b);
  }

  /** `+s` restricted to the numerals this engine itself produces: a non-empty
      run of decimal digits. Anything else is `None`. */
  function ParseNat(s: string): (r: Option<nat>)
    ensures r.Some? <==> s != [] && AllDigits(s)
  {
    if s != [] && AllDigits(s) then Some(DigitsValue(s)) else None
  }

  lemma ParseNatToString(n: nat)
    ensures ParseNat(NatToString(n)) == Some(n)
  {
    NatToStringValue(n);
  }

  function Repeat(c: char, n: nat): (s: string)
    ensures |s| == n && forall i :: 0 <= i < n ==> s[i] == c
  {
    if n == 0 then [] else [c] + Repeat(c, n - 1)
  }

  /** `s` preceded by as many copies of `c` as needed to reach `width`. */
  function PadLeft(s: string, width: nat, c: char): (r: string)
    ensures |r| == if |s| < width then width else |s|
    ensures r[|r| - |s|..] == s
    ensures forall i :: 0 <= i < |r| - |s| ==> r[i] == c
  {
    if |s| < width then Repeat(c, width - |s|) + s else s
  }

  /** Leading zeros do not change the value of a digit run. */
  lemma {:induction false} DigitsValueLeadingZeros(z: nat, s: string)
    requires AllDigits(s)
    ensures AllDigits(Repeat('0', z) + s)
    ensures DigitsValue(Repeat('0', z) + s) == DigitsValue(s)
  {
    if s != [] {
      var t := Repeat('0', z) + s;
      assert t[..|t| - 1] == Repeat('0', z) + s[..|s| - 1];
      DigitsValueLeadingZeros(z, s[..|s| - 1]);
    } else {
      DigitsValueZeros(z);
      assert Repeat('0', z) + s == Repeat('0', z);
    }
  }

  lemma {:induction false} DigitsValueZeros(z: nat)
    ensures AllDigits(Repeat('0', z)) && DigitsValue(Repeat('0', z)) == 0
  {
    if z > 0 {
      assert Repeat('0', z)[..z - 1] == Repeat('0', z - 1);
      DigitsValueZeros(z - 1);
    }
  }

  /** A numeral padded with zeros to `width` reads back as the number. */
  lemma PaddedNumeralValue(n: nat, width: nat)
    ensures AllDigits(PadLeft(NatToString(n), width, '0'))
    ensures DigitsValue(PadLeft(NatToString(n), width, '0')) == n
  {
    var s := NatToString(n);
    NatToStringValue(n);
    if |s| < width {
      DigitsValueLeadingZeros(width - |s|, s);
    }
  }

  function Pow10(n: nat): (p: nat)
    ensures p >= 1
  {
    if n == 0 then 1 else 10 * Pow10(n - 1)
  }

  /** A run of `k` digits is worth less than `10^k`. */
  lemma {:induction false} DigitsValueBound(s: string)
    requires AllDigits(s)
    ensures DigitsValue(s) < Pow10(|s|)
  {
    if s != [] {
      DigitsValueBound(s[..|s| - 1]);
    }
  }

  /** A number below `10^w` prints in at most `w` digits. */
  lemma {:induction false} NatToStringFits(n: nat, w: nat)
    requires 1 <= w && n < Pow10(w)
    ensures |NatToString(n)| <= w
  {
    if n >= 10 {
      assert w != 1;
      NatToStringFits(n / 10, w - 1);
    }
  }

  /** Two digit runs of the same length with the same value are the same
      run. */
  lemma {:induction false} DigitsValueInjective(a: string, b: string)
    requires AllDigits(a) && AllDigits(b) && |a| == |b|
    requires DigitsValue(a) == DigitsValue(b)
    ensures a == b
  {
    if a != [] {
      var n := |a| - 1;
      assert DigitValue(a[n]) == DigitValue(b[n]);
      DigitsValueInjective(a[..n], b[..n]);
      assert a == a[..n] + [a[n]] && b == b[..n] + [b[n]];
    }
  }

  /** `n` padded with zeros to `w` digits, for `n < 10^w`: exactly `w`
      digits worth `n`. */
  lemma PaddedNumeral(n: nat, w: nat)
    requires 1 <= w && n < Pow10(w)
    ensures |PadLeft(NatToString(n), w, '0')| == w
    ensures AllDigits(PadLeft(NatToString(n), w, '0'))
    ensures DigitsValue(PadLeft(NatToString(n), w, '0')) == n
  {
    NatToStringFits(n, w);
    PaddedNumeralValue(n, w);
  }

  /** A run of `w` digits is the zero-padded numeral of its own value. */
  lemma PaddedNumeralOfDigits(t: string)
    requires AllDigits(t) && t != []
    ensures PadLeft(NatToString(DigitsValue(t)), |t|, '0') == t
  {
    DigitsValueBound(t);
    PaddedNumeral(DigitsValue(t), |t|);
    DigitsValueInjective(PadLeft(NatToString(DigitsValue(t)), |t|, '0'), t);
  }

  /** A run of `w` digits is worth less than `10^w` and is the zero-padded
      numeral of its value. */
  lemma FieldPadded(t: string, w: nat)
    requires AllDigits(t) && |t| == w && (w == 2 || w == 4)
    ensures w == 2 ==> DigitsValue(t) < 100
    ensures w == 4 ==> DigitsValue(t) < 10000
    ensures PadLeft(NatToString(DigitsValue(t)), w, '0') == t
  {
    DigitsValueBound(t);
    assert Pow10(2) == 100 && Pow10(4) == 10000;
    PaddedNumeralOfDigits(t);
  }

  /** The length of the run of decimal digits `s` starts with. */
  function DigitRun(s: string): (n: nat)
    ensures n <= |s| && AllDigits(s[..n]) && (n < |s| ==> !IsDigit(s[n]))
  {
    if s == [] || !IsDigit(s[0]) then 0
    else
      var n := 1 + DigitRun(s[1..]);
      assert s[..n] == [s[0]] + s[1..][..n - 1];
      n
  }

  /** A run of digits ends where the next character is not a digit. */
  lemma {:induction false} DigitRunOf(ds: string, rest: string)
    requires AllDigits(ds) && (rest == [] || !IsDigit(rest[0]))
    ensures DigitRun(ds + rest) == |ds|
  {
    if ds != [] {
      assert (ds + rest)[1..] == ds[1..] + rest;
      DigitRunOf(ds[1..], rest);
    }
  }
}
