/** Query ids written with quoted keys identify their filter: two filters get
    the same id exactly when they hold the same members, whatever order those
    were added in. */
module UniqueIds {
  import opened Options
  import opened Strings
  import opened Ordered
  import opened Json
  import opened KeySort
  import opened QueryIds

  lemma HexDigitInjective(a: nat, b: nat)
    requires a < 16 && b < 16 && HexDigit(a) == HexDigit(b)
    ensures a == b
  {
  }

  /** Every escape is one character other than `"` and `\`, or `\` followed
      by one letter, or `\u` followed by four characters. */
  lemma EscapeCharShape(c: char)
    ensures var e := EscapeChar(c);
      && e != [] && e[0] != '"'
      && (e[0] != '\\' ==> e == [c])
      && (e[0] == '\\' ==> (|e| == 2 && e[1] != 'u') || (|e| == 6 && e[1] == 'u'))
  {
  }

  /** No character escapes like another. */
  lemma EscapeCharInjective(c: char, d: char)
    requires EscapeChar(c) == EscapeChar(d)
    ensures c == d
  {
    var e := EscapeChar(c);
    if |e| == 6 {
      HexDigitInjective(c as int / 16, d as int / 16);
      HexDigitInjective(c as int % 16, d as int % 16);
    }
  }

  /** An escaped character is recognised at the start of any text. */
  lemma EscapeCharPrefix(c: char, d: char, t1: string, t2: string)
    requires EscapeChar(c) + t1 == EscapeChar(d) + t2
    ensures c == d && t1 == t2
  {
    var e, f := EscapeChar(c), EscapeChar(d);
    EscapeCharShape(c);
    EscapeCharShape(d);
    assert (e + t1)[0] == e[0] && (f + t2)[0] == f[0];
    if e[0] == '\\' {
      assert (e + t1)[1] == e[1] && (f + t2)[1] == f[1];
    }
    assert |e| == |f|;
    assert e == (e + t1)[..|e|] && f == (f + t2)[..|f|];
    EscapeCharInjective(c, d);
    assert t1 == (e + t1)[|e|..] && t2 == (f + t2)[|f|..];
  }

  lemma Regroup<T>(a: seq<T>, b: seq<T>, c: seq<T>, d: seq<T>)
    ensures a + b + c + d == a + (b + c + d)
  {
  }

  lemma RegroupFive<T>(a: seq<T>, b: seq<T>, c: seq<T>, d: seq<T>, e: seq<T>)
    ensures a + b + c + d + e == a + (b + (c + (d + e)))
  {
  }

  lemma RegroupSeven<T>(a: seq<T>, b: seq<T>, c: seq<T>, d: seq<T>, e: seq<T>, f: seq<T>, g: seq<T>)
    ensures a + b + c + d + e + f + g == a + (b + (c + (d + (e + f + g))))
  {
  }

  /** An escaped string followed by `"` starts with that `"` only when it is
      empty, and is otherwise its first character's escape followed by the
      rest. */
  lemma EscapeLead(s: string, t: string)
    ensures (Escape(s) + "\"" + t)[0] == '"' <==> s == []
    ensures s == [] ==> (Escape(s) + "\"" + t)[1..] == t
    ensures s != [] ==> Escape(s) + "\"" + t == EscapeChar(s[0]) + (Escape(s[1..]) + "\"" + t)
  {
    if s != [] {
      var e, r := EscapeChar(s[0]), Escape(s[1..]) + "\"" + t;
      Regroup(e, Escape(s[1..]), "\"", t);
      EscapeCharShape(s[0]);
      assert (e + r)[0] == e[0];
    } else {
      assert Escape(s) + "\"" + t == "\"" + t;
    }
  }

  /** An escaped string followed by `"` ends at that `"`: the text after it
      and the string are both determined. */
  lemma {:induction false} EscapePrefix(s1: string, s2: string, t1: string, t2: string)
    requires Escape(s1) + "\"" + t1 == Escape(s2) + "\"" + t2
    ensures s1 == s2 && t1 == t2
    decreases |s1|
  {
    EscapeLead(s1, t1);
    EscapeLead(s2, t2);
    if s1 != [] && s2 != [] {
      var u1, u2 := Escape(s1[1..]) + "\"" + t1, Escape(s2[1..]) + "\"" + t2;
      EscapeCharPrefix(s1[0], s2[0], u1, u2);
      EscapePrefix(s1[1..], s2[1..], t1, t2);
      assert s1 == [s1[0]] + s1[1..] && s2 == [s2[0]] + s2[1..];
    }
  }

  /** A quoted string is recognised at the start of any text. */
  lemma QuotePrefix(s1: string, s2: string, t1: string, t2: string)
    requires Quote(s1) + t1 == Quote(s2) + t2
    ensures s1 == s2 && t1 == t2
  {
    assert (Quote(s1) + t1)[1..] == Escape(s1) + "\"" + t1;
    assert (Quote(s2) + t2)[1..] == Escape(s2) + "\"" + t2;
    EscapePrefix(s1, s2, t1, t2);
  }

  lemma SplitAt<T>(s: seq<T>, i: nat)
    requires i < |s|
    ensures s[i..] == [s[i]] + s[i + 1..]
  {
  }

  lemma DropSame<T>(t: seq<T>, r1: seq<T>, r2: seq<T>)
    requires t + r1 == t + r2
    ensures r1 == r2
  {
    assert r1 == (t + r1)[|t|..] && r2 == (t + r2)[|t|..];
  }

  /** A numeral followed by anything but a digit ends where its digits
      end. */
  lemma NumeralPrefix(x: nat, y: nat, r1: string, r2: string)
    requires NatToString(x) + r1 == NatToString(y) + r2
    requires r1 == [] || !IsDigit(r1[0])
    requires r2 == [] || !IsDigit(r2[0])
    ensures x == y && r1 == r2
  {
    var a, b := NatToString(x), NatToString(y);
    DigitRunOf(a, r1);
    DigitRunOf(b, r2);
    assert a == (a + r1)[..|a|] && b == (b + r2)[..|b|];
    NatToStringInjective(x, y);
    DropSame(a, r1, r2);
  }

  /** The same for integers with their sign. */
  lemma IntPrefix(n: int, m: int, r1: string, r2: string)
    requires IntToString(n) + r1 == IntToString(m) + r2
    requires r1 == [] || !IsDigit(r1[0])
    requires r2 == [] || !IsDigit(r2[0])
    ensures n == m && r1 == r2
  {
    var a, b := IntToString(n), IntToString(m);
    assert (a + r1)[0] == a[0] && (b + r2)[0] == b[0];
    if n >= 0 {
      assert IsDigit(a[0]);
    }
    if m >= 0 {
      assert IsDigit(b[0]);
    }
    if n < 0 && m < 0 {
      assert a + r1 == "-" + (NatToString(-n) + r1);
      assert b + r2 == "-" + (NatToString(-m) + r2);
      DropSame("-", NatToString(-n) + r1, NatToString(-m) + r2);
      NumeralPrefix(-n, -m, r1, r2);
    } else if n >= 0 && m >= 0 {
      NumeralPrefix(n, m, r1, r2);
    }
  }

  /** Values whose every object has its keys strictly increasing: the form
      in which each filter has exactly one representative. */
  predicate Canonical(v: Json) {
    match v
    case JArr(items) => forall i :: 0 <= i < |items| ==> Canonical(items[i])
    case JObj(ms) => StrictlySorted(ms) && forall i :: 0 <= i < |ms| ==> Canonical(ms[i].1)
    case _ => true
  }

  /** What can follow a value's text in an id: nothing, a separator, a
      closing bracket or brace, or the collapse flag. */
  predicate Ends(r: string) {
    r == [] || r[0] == ',' || r[0] == ']' || r[0] == '}' || r[0] == '+' || r[0] == '-'
  }

  /** The first character of a value's text tells which kind of value it
      is. */
  lemma StringifyLead(v: Json)
    ensures var t := StringifyQuoted(v);
      && t != []
      && (v.JNull? <==> t[0] == 'n')
      && (v.JBool? <==> t[0] == 't' || t[0] == 'f')
      && (v.JBool? ==> (v.b <==> t[0] == 't'))
      && (v.JNum? <==> t[0] == '-' || IsDigit(t[0]))
      && (v.JStr? <==> t[0] == '"')
      && (v.JArr? <==> t[0] == '[')
      && (v.JObj? <==> t[0] == '{')
  {
    if v.JNum? {
      var t := IntToString(v.n);
      assert v.n >= 0 ==> IsDigit(t[0]);
    }
  }

  /** The text of a list of elements followed by `]`, one element at a
      time. */
  lemma ItemsShape(xs: seq<Json>, t: string)
    ensures xs == [] ==> ItemsText(xs, true) + "]" + t == "]" + t
    ensures |xs| == 1 ==> ItemsText(xs, true) + "]" + t == StringifyQuoted(xs[0]) + ("]" + t)
    ensures |xs| > 1 ==>
      ItemsText(xs, true) + "]" + t == StringifyQuoted(xs[0]) + ("," + (ItemsText(xs[1..], true) + "]" + t))
  {
    if xs == [] {
    } else if |xs| == 1 {
    } else {
      var h := StringifyQuoted(xs[0]);
      Regroup(h + ",", ItemsText(xs[1..], true), "]", t);
      Regroup(h, ",", ItemsText(xs[1..], true) + "]", t);
    }
  }

  /** The text of a list of entries followed by `}`, one entry at a time. */
  lemma EntriesShape(e: seq<(string, string)>, t: string)
    ensures e == [] ==> EntriesText(e, true) + "}" + t == "}" + t
    ensures |e| == 1 ==> EntriesText(e, true) + "}" + t == Quote(e[0].0) + (":" + (e[0].1 + ("}" + t)))
    ensures |e| > 1 ==>
      EntriesText(e, true) + "}" + t == Quote(e[0].0) + (":" + (e[0].1 + ("," + (EntriesText(e[1..], true) + "}" + t))))
  {
    if e == [] {
    } else if |e| == 1 {
      RegroupFive(Quote(e[0].0), ":", e[0].1, "}", t);
    } else {
      RegroupSeven(Quote(e[0].0), ":", e[0].1, ",", EntriesText(e[1..], true), "}", t);
    }
  }

  /** Writing out the members of an object whose keys strictly increase
      keeps them strictly increasing, so they are written in the order they
      are held. */
  lemma SortedTexts(ms: seq<(string, Json)>)
    requires StrictlySorted(ms)
    ensures StrictlySorted(MemberTexts(ms, true))
    ensures SortByKey(MemberTexts(ms, true)) == MemberTexts(ms, true)
  {
    var e := MemberTexts(ms, true);
    forall i, j | 0 <= i < j < |e|
      ensures Below(e[i].0, e[j].0)
    {
      assert e[i].0 == ms[i].0 && e[j].0 == ms[j].0;
    }
    SortByKeyOfSorted(e);
  }

  /** A canonical value's text followed by anything that may follow a value
      ends where the value ends: the value and what follows are both
      determined. */
  lemma {:induction false} ValuePrefix(a: Json, b: Json, r1: string, r2: string)
    requires Canonical(a) && Canonical(b) && Ends(r1) && Ends(r2)
    requires StringifyQuoted(a) + r1 == StringifyQuoted(b) + r2
    ensures a == b && r1 == r2
    decreases a, 1, 0
  {
    var ta, tb := StringifyQuoted(a), StringifyQuoted(b);
    StringifyLead(a);
    StringifyLead(b);
    assert (ta + r1)[0] == ta[0] && (tb + r2)[0] == tb[0];
    match a {
      case JNull =>
        DropSame(ta, r1, r2);
      case JBool(x) =>
        assert b == JBool(x);
        DropSame(ta, r1, r2);
      case JNum(n) =>
        IntPrefix(n, b.n, r1, r2);
      case JStr(x) =>
        QuotePrefix(x, b.s, r1, r2);
      case JArr(xs) =>
        var ys := b.items;
        Regroup("[", ItemsText(xs, true), "]", r1);
        Regroup("[", ItemsText(ys, true), "]", r2);
        DropSame("[", ItemsText(xs, true) + "]" + r1, ItemsText(ys, true) + "]" + r2);
        ItemsPrefix(xs, ys, r1, r2);
      case JObj(ms) =>
        var ns := b.members;
        var e1, e2 := MemberTexts(ms, true), MemberTexts(ns, true);
        SortedTexts(ms);
        SortedTexts(ns);
        Regroup("{", EntriesText(e1, true), "}", r1);
        Regroup("{", EntriesText(e2, true), "}", r2);
        DropSame("{", EntriesText(e1, true) + "}" + r1, EntriesText(e2, true) + "}" + r2);
        assert e1[0..] == e1 && e2[0..] == e2;
        EntriesPrefix(ms, ns, 0, r1, r2);
        assert ms[0..] == ms && ns[0..] == ns;
    }
  }

  /** The same for the elements of an array followed by `]`. */
  /** The text of a list of items, then `]`, starts with `]` exactly when
      the list is empty. */
  lemma ItemsLead(xs: seq<Json>, t: string)
    ensures (ItemsText(xs, true) + "]" + t)[0] == ']' <==> xs == []
  {
    var w := ItemsText(xs, true) + "]" + t;
    ItemsShape(xs, t);
    if xs == [] {
      assert w[0] == ']';
    } else {
      StringifyLead(xs[0]);
      assert w[0] == StringifyQuoted(xs[0])[0];
    }
  }

  lemma {:induction false} ItemsPrefix(xs: seq<Json>, ys: seq<Json>, t1: string, t2: string)
    requires forall i :: 0 <= i < |xs| ==> Canonical(xs[i])
    requires forall i :: 0 <= i < |ys| ==> Canonical(ys[i])
    requires ItemsText(xs, true) + "]" + t1 == ItemsText(ys, true) + "]" + t2
    ensures xs == ys && t1 == t2
    decreases xs, 0, 0
  {
    ItemsLead(xs, t1);
    ItemsLead(ys, t2);
    ItemsShape(xs, t1);
    ItemsShape(ys, t2);
    if xs == [] && ys == [] {
      DropSame("]", t1, t2);
    } else if xs != [] && ys != [] {
      var u1 := if |xs| == 1 then "]" + t1 else "," + (ItemsText(xs[1..], true) + "]" + t1);
      var u2 := if |ys| == 1 then "]" + t2 else "," + (ItemsText(ys[1..], true) + "]" + t2);
      assert u1[0] == (if |xs| == 1 then ']' else ',');
      assert u2[0] == (if |ys| == 1 then ']' else ',');
      ValuePrefix(xs[0], ys[0], u1, u2);
      if |xs| == 1 && |ys| == 1 {
        DropSame("]", t1, t2);
        assert xs == [xs[0]] && ys == [ys[0]];
      } else if |xs| > 1 && |ys| > 1 {
        DropSame(",", ItemsText(xs[1..], true) + "]" + t1, ItemsText(ys[1..], true) + "]" + t2);
        ItemsPrefix(xs[1..], ys[1..], t1, t2);
        assert xs == [xs[0]] + xs[1..] && ys == [ys[0]] + ys[1..];
      }
    }
  }

  /** The same for the members of an object, from the `i`th on, followed by
      `}`. */
  lemma {:induction false} EntriesPrefix(ms1: seq<(string, Json)>, ms2: seq<(string, Json)>, i: nat,
                                         t1: string, t2: string)
    requires i <= |ms1| && i <= |ms2|
    requires forall j :: 0 <= j < |ms1| ==> Canonical(ms1[j].1)
    requires forall j :: 0 <= j < |ms2| ==> Canonical(ms2[j].1)
    requires EntriesText(MemberTexts(ms1, true)[i..], true) + "}" + t1
          == EntriesText(MemberTexts(ms2, true)[i..], true) + "}" + t2
    ensures ms1[i..] == ms2[i..] && t1 == t2
    decreases JObj(ms1), 0, |ms1| - i
  {
    var e1, e2 := MemberTexts(ms1, true)[i..], MemberTexts(ms2, true)[i..];
    var w1, w2 := EntriesText(e1, true) + "}" + t1, EntriesText(e2, true) + "}" + t2;
    EntriesShape(e1, t1);
    EntriesShape(e2, t2);
    if e1 == [] {
      assert w1[0] == '}';
    } else {
      assert w1[0] == Quote(e1[0].0)[0] == '"';
    }
    if e2 == [] {
      assert w2[0] == '}';
    } else {
      assert w2[0] == Quote(e2[0].0)[0] == '"';
    }
    if e1 == [] && e2 == [] {
      DropSame("}", t1, t2);
    } else if e1 != [] && e2 != [] {
      var k1, v1, k2, v2 := ms1[i].0, ms1[i].1, ms2[i].0, ms2[i].1;
      assert e1[0] == (k1, StringifyQuoted(v1)) && e2[0] == (k2, StringifyQuoted(v2));
      var u1 := if |e1| == 1 then "}" + t1 else "," + (EntriesText(e1[1..], true) + "}" + t1);
      var u2 := if |e2| == 1 then "}" + t2 else "," + (EntriesText(e2[1..], true) + "}" + t2);
      assert u1[0] == (if |e1| == 1 then '}' else ',');
      assert u2[0] == (if |e2| == 1 then '}' else ',');
      QuotePrefix(k1, k2, ":" + (StringifyQuoted(v1) + u1), ":" + (StringifyQuoted(v2) + u2));
      DropSame(":", StringifyQuoted(v1) + u1, StringifyQuoted(v2) + u2);
      ValuePrefix(v1, v2, u1, u2);
      if |e1| == 1 && |e2| == 1 {
        DropSame("}", t1, t2);
        SplitAt(ms1, i);
        SplitAt(ms2, i);
      } else if |e1| > 1 && |e2| > 1 {
        DropSame(",", EntriesText(e1[1..], true) + "}" + t1, EntriesText(e2[1..], true) + "}" + t2);
        assert e1[1..] == MemberTexts(ms1, true)[i + 1..] && e2[1..] == MemberTexts(ms2, true)[i + 1..];
        EntriesPrefix(ms1, ms2, i + 1, t1, t2);
        SplitAt(ms1, i);
        SplitAt(ms2, i);
      }
    }
  }

  /** A canonical value is the only canonical value with its text. */
  lemma StringifyQuotedInjective(a: Json, b: Json)
    requires Canonical(a) && Canonical(b)
    requires StringifyQuoted(a) == StringifyQuoted(b)
    ensures a == b
  {
    assert StringifyQuoted(a) + [] == StringifyQuoted(b) + [];
    ValuePrefix(a, b, [], []);
  }

  /** Values as JavaScript holds them: no object has a key twice. */
  predicate WellFormed(v: Json) {
    match v
    case JArr(items) => forall i :: 0 <= i < |items| ==> WellFormed(items[i])
    case JObj(ms) => Distinct(KeysOf(ms)) && forall i :: 0 <= i < |ms| ==> WellFormed(ms[i].1)
    case _ => true
  }

  /** A value with every object's members put in key order: two well-formed
      values have the same normal form exactly when they hold the same
      members at every level, whatever order those were added in. */
  function Normalize(v: Json): Json
    decreases v, 1
  {
    match v
    case JArr(items) => JArr(seq(|items|, i requires 0 <= i < |items| => Normalize(items[i])))
    case JObj(ms) => JObj(SortByKey(NormalMembers(ms)))
    case _ => v
  }

  function NormalMembers(ms: seq<(string, Json)>): seq<(string, Json)>
    decreases JObj(ms), 0
  {
    seq(|ms|, i requires 0 <= i < |ms| => (ms[i].0, Normalize(ms[i].1)))
  }

  /** The entries of a sorted list are entries of the list sorted. */
  lemma SortedFrom<V(!new)>(s: seq<(string, V)>, j: nat)
    requires j < |SortByKey(s)|
    ensures exists i :: 0 <= i < |s| && s[i] == SortByKey(s)[j]
  {
    assert SortByKey(s)[j] in s;
  }

  /** The normal form of a well-formed value is canonical. */
  lemma {:induction false} NormalizeCanonical(v: Json)
    requires WellFormed(v)
    ensures Canonical(Normalize(v))
    decreases v
  {
    match v {
      case JArr(items) =>
        forall i | 0 <= i < |items|
          ensures Canonical(Normalize(items[i]))
        {
          NormalizeCanonical(items[i]);
        }
      case JObj(ms) =>
        var nm := NormalMembers(ms);
        assert KeysOf(nm) == KeysOf(ms);
        SortByKeySorted(nm);
        var sn := SortByKey(nm);
        forall j | 0 <= j < |sn|
          ensures Canonical(sn[j].1)
        {
          SortedFrom(nm, j);
          var i :| 0 <= i < |nm| && nm[i] == sn[j];
          NormalizeCanonical(ms[i].1);
        }
      case _ =>
    }
  }

  /** Elements written alike make arrays written alike. */
  lemma {:induction false} ItemsTextSame(xs: seq<Json>, ys: seq<Json>)
    requires |xs| == |ys|
    requires forall i :: 0 <= i < |xs| ==> StringifyQuoted(xs[i]) == StringifyQuoted(ys[i])
    ensures ItemsText(xs, true) == ItemsText(ys, true)
  {
    if |xs| > 1 {
      ItemsTextSame(xs[1..], ys[1..]);
    }
  }

  /** Two lists hold the same entries when each entry of one has a
      counterpart in the other. */
  lemma SameEntries<A(!new), B(!new)>(sn: seq<A>, nm: seq<A>, x: seq<B>, y: seq<B>)
    requires |x| == |sn| && |y| == |nm|
    requires forall a :: a in sn <==> a in nm
    requires forall i, j :: 0 <= i < |nm| && 0 <= j < |sn| && sn[j] == nm[i] ==> x[j] == y[i]
    ensures forall t :: t in x <==> t in y
  {
    forall t
      ensures t in x <==> t in y
    {
      if t in x {
        var j :| 0 <= j < |x| && x[j] == t;
        assert sn[j] in nm;
        var i :| 0 <= i < |nm| && nm[i] == sn[j];
      }
      if t in y {
        var i :| 0 <= i < |y| && y[i] == t;
        assert nm[i] in sn;
        var j :| 0 <= j < |sn| && sn[j] == nm[i];
      }
    }
  }

  /** Entry lists matched entry for entry through two lists holding the
      same entries: when the first is sorted, it is the second sorted. */
  lemma Resorted<A(!new), V(!new)>(sn: seq<A>, nm: seq<A>, x: seq<(string, V)>, y: seq<(string, V)>)
    requires |x| == |sn| && |y| == |nm|
    requires forall a :: a in sn <==> a in nm
    requires forall i, j :: 0 <= i < |nm| && 0 <= j < |sn| && sn[j] == nm[i] ==> x[j] == y[i]
    requires StrictlySorted(x) && Distinct(KeysOf(y))
    ensures SortByKey(y) == x
  {
    SameEntries(sn, nm, x, y);
    SortByKeySorted(y);
    SortedUnique(x, SortByKey(y));
  }

  /** Objects whose member texts sort alike are written alike. */
  lemma SameObjectText(a: seq<(string, Json)>, b: seq<(string, Json)>)
    requires SortByKey(MemberTexts(a, true)) == SortByKey(MemberTexts(b, true))
    ensures StringifyQuoted(JObj(a)) == StringifyQuoted(JObj(b))
  {
  }

  /** Writing out the members keeps their keys. */
  lemma TextsKeys(ms: seq<(string, Json)>)
    ensures KeysOf(MemberTexts(ms, true)) == KeysOf(ms)
  {
  }

  /** Each normalised member, wherever sorting put it, is written as the
      member it came from. */
  predicate TextsMatch(ms: seq<(string, Json)>) {
    forall i, j :: 0 <= i < |ms| && 0 <= j < |ms| && SortByKey(NormalMembers(ms))[j] == NormalMembers(ms)[i]
      ==> MemberTexts(SortByKey(NormalMembers(ms)), true)[j] == MemberTexts(ms, true)[i]
  }

  lemma NormalTextsMatch(ms: seq<(string, Json)>)
    requires forall i :: 0 <= i < |ms| ==> StringifyQuoted(Normalize(ms[i].1)) == StringifyQuoted(ms[i].1)
    ensures TextsMatch(ms)
  {
  }

  /** Sorting an object's members, each written as before, does not change
      its text. */
  lemma NormalMembersText(ms: seq<(string, Json)>)
    requires Distinct(KeysOf(ms))
    requires TextsMatch(ms)
    ensures SortByKey(MemberTexts(SortByKey(NormalMembers(ms)), true)) == SortByKey(MemberTexts(ms, true))
  {
    var nm := NormalMembers(ms);
    var sn := SortByKey(nm);
    var x, y := MemberTexts(sn, true), MemberTexts(ms, true);
    assert KeysOf(nm) == KeysOf(ms);
    TextsKeys(ms);
    SortByKeySorted(nm);
    SortedTexts(sn);
    Resorted(sn, nm, x, y);
  }

  /** Normalising does not change the text. */
  lemma {:induction false} NormalizeText(v: Json)
    requires WellFormed(v)
    ensures StringifyQuoted(Normalize(v)) == StringifyQuoted(v)
    decreases v
  {
    match v {
      case JArr(items) =>
        var ns := Normalize(v).items;
        forall i | 0 <= i < |items|
          ensures StringifyQuoted(ns[i]) == StringifyQuoted(items[i])
        {
          NormalizeText(items[i]);
        }
        ItemsTextSame(ns, items);
      case JObj(ms) =>
        forall i | 0 <= i < |ms|
          ensures StringifyQuoted(Normalize(ms[i].1)) == StringifyQuoted(ms[i].1)
        {
          NormalizeText(ms[i].1);
        }
        NormalTextsMatch(ms);
        NormalMembersText(ms);
        SameObjectText(SortByKey(NormalMembers(ms)), ms);
      case _ =>
    }
  }

  /** With keys quoted, two well-formed filters are written alike exactly
      when they hold the same members at every level. */
  lemma SameTextSameFilter(a: Json, b: Json)
    requires WellFormed(a) && WellFormed(b)
    ensures StringifyQuoted(a) == StringifyQuoted(b) <==> Normalize(a) == Normalize(b)
  {
    NormalizeText(a);
    NormalizeText(b);
    NormalizeCanonical(a);
    NormalizeCanonical(b);
    if StringifyQuoted(a) == StringifyQuoted(b) {
      StringifyQuotedInjective(Normalize(a), Normalize(b));
    }
  }

  /** The filter of a query, as `getId` distinguishes filters: absent, or
      its normal form. */
  function FilterForm(args: Json): Option<Json> {
    match Prop(args, "filter")
    case None => None
    case Some(f) => Some(Normalize(f))
  }

  predicate FilterWellFormed(args: Json) {
    match Prop(args, "filter")
    case None => true
    case Some(f) => WellFormed(f)
  }

  /** The text `getId` writes for the filter. */
  lemma FilterText(args: Json)
    ensures var text := match Prop(args, "filter")
                        case None => "undefined"
                        case Some(f) => StringifyQuoted(f);
            && GetId(args) == "ml:" + (text + (if Truthy(Prop(args, "collapseThreads")) then "+" else "-"))
            && (text == "undefined" <==> Prop(args, "filter").None?)
  {
    if Prop(args, "filter").Some? {
      StringifyLead(Prop(args, "filter").value);
      assert "undefined"[0] == 'u';
    }
  }

  /** With keys quoted, two queries get the same id exactly when their
      filters are both absent or hold the same members at every level, and
      they agree on collapsing threads. */
  lemma GetIdIdentifies(x: Json, y: Json)
    requires FilterWellFormed(x) && FilterWellFormed(y)
    ensures GetId(x) == GetId(y)
        <==> FilterForm(x) == FilterForm(y)
             && Truthy(Prop(x, "collapseThreads")) == Truthy(Prop(y, "collapseThreads"))
  {
    var fx := match Prop(x, "filter") case None => "undefined" case Some(f) => StringifyQuoted(f);
    var fy := match Prop(y, "filter") case None => "undefined" case Some(f) => StringifyQuoted(f);
    var cx := if Truthy(Prop(x, "collapseThreads")) then "+" else "-";
    var cy := if Truthy(Prop(y, "collapseThreads")) then "+" else "-";
    FilterText(x);
    FilterText(y);
    if Prop(x, "filter").Some? && Prop(y, "filter").Some? {
      SameTextSameFilter(Prop(x, "filter").value, Prop(y, "filter").value);
    }
    if GetId(x) == GetId(y) {
      DropSame("ml:", fx + cx, fy + cy);
      assert fx == (fx + cx)[..|fx|] && fy == (fy + cy)[..|fy|];
      assert cx[0] == (fx + cx)[|fx|] && cy[0] == (fy + cy)[|fy|];
    }
  }

  /** The collision of the keys written unescaped, and the corrected id
      telling the two filters apart. */
  lemma FilterIdsApart()
    ensures var x := Single("filter", JObj([("a\":1,\"b", JNum(2))]));
            var y := Single("filter", JObj([("a", JNum(1)), ("b", JNum(2))]));
            GetIdAsWritten(x) == GetIdAsWritten(y) && GetId(x) != GetId(y)
  {
    var one := JObj([("a\":1,\"b", JNum(2))]);
    var two := JObj([("a", JNum(1)), ("b", JNum(2))]);
    var x, y := Single("filter", one), Single("filter", two);
    KeysUnescapedCollide();
    assert KeysOf(two.members) == ["a", "b"];
    assert |Normalize(one).members| == 1 && |Normalize(two).members| == 2;
    GetIdIdentifies(x, y);
  }
}
