/** The order in which JavaScript lists an object's own string keys, for
    `for ... in`, `Object.keys` and `Object.values` alike: the keys that are
    array indices first, in ascending numeric order, then every other key in
    the order it was first added (section 10.1.11.1, OrdinaryOwnPropertyKeys,
    of ECMA-262). An object is a key/value list in insertion order, and
    `Enumerated` reorders it. */
module OwnKeys {
  import opened Strings
  import opened Ordered

  /** An array index: the shortest decimal numeral of an integer below
      2^32 - 1. `"10"` is one; `"010"`, `"-1"` and `"1e0"` are not. */
  predicate IsIndexKey(k: string) {
    k != [] && AllDigits(k) && DigitsValue(k) < 0xFFFF_FFFF && NatToString(DigitsValue(k)) == k
  }

  /** The integer an index key names (0 for any other key). */
  function IndexValue(k: string): nat {
    if k != [] && AllDigits(k) then DigitsValue(k) else 0
  }

  /** The members whose key is an array index, in insertion order. */
  function Indexed<V>(m: seq<(string, V)>): (r: seq<(string, V)>)
    ensures forall x :: x in r ==> x in m && IsIndexKey(x.0)
    ensures |r| <= |m|
  {
    if m == [] then [] else (if IsIndexKey(m[0].0) then [m[0]] else []) + Indexed(m[1..])
  }

  /** The other members, in insertion order. */
  function NonIndexed<V>(m: seq<(string, V)>): (r: seq<(string, V)>)
    ensures forall x :: x in r ==> x in m && !IsIndexKey(x.0)
    ensures |r| <= |m|
  {
    if m == [] then [] else (if IsIndexKey(m[0].0) then [] else [m[0]]) + NonIndexed(m[1..])
  }

  /** Index values do not decrease along `s`. */
  predicate Ascending<V>(s: seq<(string, V)>) {
    forall i, j :: 0 <= i < j < |s| ==> IndexValue(s[i].0) <= IndexValue(s[j].0)
  }

  /** `p` placed before the first member with a larger index value. */
  function InsertByIndex<V>(p: (string, V), s: seq<(string, V)>): (r: seq<(string, V)>)
    ensures multiset(r) == multiset(s) + multiset{p}
    ensures |r| == |s| + 1
  {
    if s == [] || IndexValue(p.0) <= IndexValue(s[0].0) then [p] + s
    else
      assert s == [s[0]] + s[1..];
      [s[0]] + InsertByIndex(p, s[1..])
  }

  /** Insertion sort by index value. */
  function SortByIndex<V>(s: seq<(string, V)>): (r: seq<(string, V)>)
    ensures multiset(r) == multiset(s)
    ensures |r| == |s|
  {
    if s == [] then []
    else
      assert s == [s[0]] + s[1..];
      InsertByIndex(s[0], SortByIndex(s[1..]))
  }

  /** An object's members in enumeration order. */
  function Enumerated<V>(m: seq<(string, V)>): seq<(string, V)> {
    SortByIndex(Indexed(m)) + NonIndexed(m)
  }

  /** A list of keys as the members of an object whose values do not
      matter, like the `{ id: true }` sets of `fetchRecords`. */
  function KeySet(ks: seq<string>): (m: seq<(string, bool)>)
    ensures KeysOf(m) == ks
    decreases |ks|
  {
    if ks == [] then [] else [(ks[0], true)] + KeySet(ks[1..])
  }

  /** `Object.keys` of such an object, or `for ... in` over it. */
  function EnumeratedKeys(ks: seq<string>): seq<string> {
    KeysOf(Enumerated(KeySet(ks)))
  }

  lemma {:induction false} SplitPermutes<V>(m: seq<(string, V)>)
    ensures multiset(Indexed(m)) + multiset(NonIndexed(m)) == multiset(m)
    decreases |m|
  {
    if m != [] {
      SplitPermutes(m[1..]);
      assert m == [m[0]] + m[1..];
    }
  }

  /** Enumeration lists every member exactly as often as the object holds
      it. */
  lemma EnumeratedPermutes<V>(m: seq<(string, V)>)
    ensures multiset(Enumerated(m)) == multiset(m)
    ensures |Enumerated(m)| == |m|
    ensures forall x :: x in Enumerated(m) <==> x in m
  {
    SplitPermutes(m);
    assert multiset(Enumerated(m)) == multiset(m);
    assert |multiset(Enumerated(m))| == |multiset(m)|;
    forall x ensures x in Enumerated(m) <==> x in m {
      assert x in Enumerated(m) <==> x in multiset(Enumerated(m));
      assert x in m <==> x in multiset(m);
    }
  }

  lemma {:induction false} InsertAscending<V>(p: (string, V), s: seq<(string, V)>)
    requires Ascending(s)
    ensures Ascending(InsertByIndex(p, s))
    decreases |s|
  {
    if s != [] && IndexValue(p.0) > IndexValue(s[0].0) {
      InsertAscending(p, s[1..]);
      AscendingHead(s);
      InsertMembers(p, s[1..]);
      var t := InsertByIndex(p, s[1..]);
      var r := [s[0]] + t;
      forall j | 0 < j < |r| ensures IndexValue(s[0].0) <= IndexValue(r[j].0) {
        assert r[j] == t[j - 1] && t[j - 1] in t;
      }
      forall i, j | 0 <= i < j < |r| ensures IndexValue(r[i].0) <= IndexValue(r[j].0) {
        if i > 0 {
          assert r[i] == t[i - 1] && r[j] == t[j - 1];
        }
      }
    }
  }

  /** The first member of an ascending list has the least index value. */
  lemma AscendingHead<V>(s: seq<(string, V)>)
    requires s != [] && Ascending(s)
    ensures forall x :: x in s[1..] ==> IndexValue(s[0].0) <= IndexValue(x.0)
  {
    forall x | x in s[1..] ensures IndexValue(s[0].0) <= IndexValue(x.0) {
      var k :| 0 <= k < |s[1..]| && s[1..][k] == x;
      assert s[k + 1] == x;
    }
  }

  /** Inserting adds `p` and nothing else. */
  lemma InsertMembers<V>(p: (string, V), s: seq<(string, V)>)
    ensures forall x :: x in InsertByIndex(p, s) ==> x == p || x in s
  {
    var r := InsertByIndex(p, s);
    forall x | x in r ensures x == p || x in s {
      assert x in multiset(r);
    }
  }

  lemma {:induction false} SortAscending<V>(s: seq<(string, V)>)
    ensures Ascending(SortByIndex(s))
    decreases |s|
  {
    if s != [] {
      SortAscending(s[1..]);
      InsertAscending(s[0], SortByIndex(s[1..]));
    }
  }

  lemma {:induction false} NonIndexedAppend<V>(a: seq<(string, V)>, b: seq<(string, V)>)
    ensures NonIndexed(a + b) == NonIndexed(a) + NonIndexed(b)
    decreases |a|
  {
    if a != [] {
      assert (a + b)[0] == a[0] && (a + b)[1..] == a[1..] + b;
      NonIndexedAppend(a[1..], b);
    } else {
      assert a + b == b;
    }
  }

  lemma {:induction false} NonIndexedOfIndices<V>(s: seq<(string, V)>)
    requires forall x :: x in s ==> IsIndexKey(x.0)
    ensures NonIndexed(s) == []
    decreases |s|
  {
    if s != [] {
      assert s[0] in s;
      NonIndexedOfIndices(s[1..]);
    }
  }

  lemma {:induction false} NonIndexedIdempotent<V>(s: seq<(string, V)>)
    ensures NonIndexed(NonIndexed(s)) == NonIndexed(s)
    decreases |s|
  {
    if s != [] {
      NonIndexedIdempotent(s[1..]);
      var head := if IsIndexKey(s[0].0) then [] else [s[0]];
      assert NonIndexed(head) == head;
      NonIndexedAppend(head, NonIndexed(s[1..]));
    }
  }

  /** The keys that are array indices come first, in ascending order;
      every other key follows, in the order it was added. */
  lemma EnumerationOrder<V>(m: seq<(string, V)>)
    ensures var r := Enumerated(m);
      && (forall i, j :: 0 <= i < j < |r| && IsIndexKey(r[j].0) ==>
            IsIndexKey(r[i].0) && IndexValue(r[i].0) <= IndexValue(r[j].0))
      && NonIndexed(r) == NonIndexed(m)
  {
    var a := SortByIndex(Indexed(m));
    var b := NonIndexed(m);
    var r := a + b;
    SortAscending(Indexed(m));
    forall x | x in a ensures IsIndexKey(x.0) {
      assert x in multiset(a);
      assert x in multiset(Indexed(m));
    }
    forall j | |a| <= j < |r| ensures !IsIndexKey(r[j].0) {
      assert r[j] == b[j - |a|] && r[j] in b;
    }
    forall i, j | 0 <= i < j < |a| ensures r[i] == a[i] && r[j] == a[j] {
    }
    forall i | 0 <= i < |a| ensures r[i] in a {
      assert r[i] == a[i];
    }
    NonIndexedAppend(a, b);
    NonIndexedOfIndices(a);
    NonIndexedIdempotent(m);
  }

  lemma {:induction false} NoIndexKeys<V>(m: seq<(string, V)>)
    requires forall x :: x in m ==> !IsIndexKey(x.0)
    ensures Indexed(m) == [] && NonIndexed(m) == m
    decreases |m|
  {
    if m != [] {
      assert m[0] in m;
      NoIndexKeys(m[1..]);
      assert m == [m[0]] + m[1..];
    }
  }

  /** An object none of whose keys is an array index enumerates in
      insertion order. */
  lemma InsertionOrderWithoutIndices<V>(m: seq<(string, V)>)
    ensures (forall x :: x in m ==> !IsIndexKey(x.0)) ==> Enumerated(m) == m
  {
    if forall x :: x in m ==> !IsIndexKey(x.0) {
      NoIndexKeys(m);
    }
  }

  /** When the first key enumerated is not an array index, the object has
      no index key at all and enumerates in insertion order. */
  lemma FirstNonIndexMeansInsertionOrder<V>(m: seq<(string, V)>)
    requires Enumerated(m) != [] && !IsIndexKey(Enumerated(m)[0].0)
    ensures Indexed(m) == [] && Enumerated(m) == m
  {
    var a := SortByIndex(Indexed(m));
    forall x | x in a ensures IsIndexKey(x.0) {
      assert x in multiset(a);
      assert x in multiset(Indexed(m));
    }
    HeadOfJoin(a, NonIndexed(m));
    assert |Indexed(m)| == |a|;
    NonIndexedAll(m);
  }

  lemma HeadOfJoin<T>(a: seq<T>, b: seq<T>)
    ensures a == [] || (a + b)[0] in a
  {
    if a != [] {
      assert (a + b)[0] == a[0];
    }
  }

  /** Without index members, the non-index members are all of them. */
  lemma {:induction false} NonIndexedAll<V>(m: seq<(string, V)>)
    requires Indexed(m) == []
    ensures NonIndexed(m) == m
    decreases |m|
  {
    if m != [] {
      assert IsIndexKey(m[0].0) ==> |Indexed(m)| > 0;
      NonIndexedAll(m[1..]);
      assert m == [m[0]] + m[1..];
    }
  }

  /** The keys of a key set enumerate as the key set holds them: each key
      as often as it was added. */
  lemma EnumeratedKeysPermutes(ks: seq<string>)
    ensures multiset(EnumeratedKeys(ks)) == multiset(ks)
    ensures forall k :: k in EnumeratedKeys(ks) <==> k in ks
  {
    EnumeratedKeysMultiset(KeySet(ks));
    forall k ensures k in EnumeratedKeys(ks) <==> k in ks {
      assert k in EnumeratedKeys(ks) <==> k in multiset(EnumeratedKeys(ks));
      assert k in ks <==> k in multiset(ks);
    }
  }

  /** Enumeration lists each key as often as the object holds it. */
  lemma EnumeratedKeysMultiset<V>(m: seq<(string, V)>)
    ensures multiset(KeysOf(Enumerated(m))) == multiset(KeysOf(m))
  {
    KeysOfAppend(SortByIndex(Indexed(m)), NonIndexed(m));
    SortKeys(Indexed(m));
    SplitKeys(m);
  }

  /** Enumeration lists the keys the object has, and no other. */
  lemma EnumeratedKeysListed<V>(m: seq<(string, V)>)
    ensures |KeysOf(Enumerated(m))| == |m|
    ensures forall k :: k in KeysOf(Enumerated(m)) <==> k in KeysOf(m)
  {
    EnumeratedKeysMultiset(m);
    EnumeratedPermutes(m);
    forall k ensures k in KeysOf(Enumerated(m)) <==> k in KeysOf(m) {
      assert k in KeysOf(Enumerated(m)) <==> k in multiset(KeysOf(Enumerated(m)));
      assert k in KeysOf(m) <==> k in multiset(KeysOf(m));
    }
  }

  lemma KeysOfCons<V>(p: (string, V), s: seq<(string, V)>)
    ensures multiset(KeysOf([p] + s)) == multiset{p.0} + multiset(KeysOf(s))
  {
    KeysOfAppend([p], s);
    assert KeysOf([p]) == [p.0];
  }

  lemma {:induction false} InsertKeys<V>(p: (string, V), s: seq<(string, V)>)
    ensures multiset(KeysOf(InsertByIndex(p, s))) == multiset(KeysOf(s)) + multiset{p.0}
    decreases |s|
  {
    if s == [] || IndexValue(p.0) <= IndexValue(s[0].0) {
      KeysOfCons(p, s);
    } else {
      InsertKeys(p, s[1..]);
      KeysOfCons(s[0], InsertByIndex(p, s[1..]));
      KeysOfCons(s[0], s[1..]);
      assert s == [s[0]] + s[1..];
    }
  }

  lemma {:induction false} SortKeys<V>(s: seq<(string, V)>)
    ensures multiset(KeysOf(SortByIndex(s))) == multiset(KeysOf(s))
    decreases |s|
  {
    if s != [] {
      SortKeys(s[1..]);
      InsertKeys(s[0], SortByIndex(s[1..]));
      KeysOfCons(s[0], s[1..]);
      assert s == [s[0]] + s[1..];
    }
  }

  lemma {:induction false} SplitKeys<V>(m: seq<(string, V)>)
    ensures multiset(KeysOf(Indexed(m))) + multiset(KeysOf(NonIndexed(m))) == multiset(KeysOf(m))
    decreases |m|
  {
    if m != [] {
      var x, t := m[0], m[1..];
      SplitKeys(t);
      assert KeysOf(m) == [x.0] + KeysOf(t);
      assert multiset(KeysOf(m)) == multiset{x.0} + multiset(KeysOf(t));
      if IsIndexKey(x.0) {
        assert Indexed(m) == [x] + Indexed(t);
        assert NonIndexed(m) == NonIndexed(t);
        KeysOfCons(x, Indexed(t));
      } else {
        assert Indexed(m) == Indexed(t);
        assert NonIndexed(m) == [x] + NonIndexed(t);
        KeysOfCons(x, NonIndexed(t));
      }
    }
  }

  lemma {:induction false} KeysOfAppend<V>(a: seq<(string, V)>, b: seq<(string, V)>)
    ensures KeysOf(a + b) == KeysOf(a) + KeysOf(b)
  {
    var l := KeysOf(a + b);
    var r := KeysOf(a) + KeysOf(b);
    assert |l| == |r|;
    forall i | 0 <= i < |l| ensures l[i] == r[i] {
      if i < |a| {
        assert (a + b)[i] == a[i];
      } else {
        assert (a + b)[i] == b[i - |a|];
      }
    }
  }

  /** An object whose keys are distinct enumerates them without repeats. */
  lemma EnumeratedDistinctKeys<V>(m: seq<(string, V)>)
    requires Distinct(KeysOf(m))
    ensures Distinct(KeysOf(Enumerated(m)))
  {
    EnumeratedKeysMultiset(m);
    DistinctPermuted(KeysOf(m), KeysOf(Enumerated(m)));
  }

  /** A reordering of a list without repeats has no repeats. */
  lemma DistinctPermuted<T>(a: seq<T>, b: seq<T>)
    requires multiset(a) == multiset(b) && Distinct(a)
    ensures Distinct(b)
  {
    DistinctCounts(a);
    forall i, j | 0 <= i < j < |b| ensures b[i] != b[j] {
      if b[i] == b[j] {
        TwiceCounts(b, i, j);
      }
    }
  }

  /** In a list without repeats, each element occurs once. */
  lemma {:induction false} DistinctCounts<T>(s: seq<T>)
    requires Distinct(s)
    ensures forall x :: multiset(s)[x] <= 1
    decreases |s|
  {
    if s != [] {
      var t := s[1..];
      assert Distinct(t) by {
        forall i, j | 0 <= i < j < |t| ensures t[i] != t[j] {
          assert t[i] == s[i + 1] && t[j] == s[j + 1];
        }
      }
      DistinctCounts(t);
      assert s == [s[0]] + t;
      forall k | 0 <= k < |t| ensures t[k] != s[0] {
        assert t[k] == s[k + 1];
      }
      assert multiset(t)[s[0]] == 0;
    }
  }

  /** An element at two positions occurs at least twice. */
  lemma TwiceCounts<T>(s: seq<T>, i: nat, j: nat)
    requires i < j < |s| && s[i] == s[j]
    ensures multiset(s)[s[i]] >= 2
  {
    assert s == s[..i] + [s[i]] + s[i + 1..j] + [s[j]] + s[j + 1..];
  }

  lemma ExampleKeys()
    ensures IsIndexKey("10") && IsIndexKey("9") && !IsIndexKey("a") && !IsIndexKey("b")
    ensures IndexValue("10") == 10 && IndexValue("9") == 9
  {
    assert NatToString(10) == "10" && NatToString(9) == "9";
    assert DigitsValue("1") == 1;
    assert "10"[..1] == "1";
    assert DigitsValue("10") == 10 && DigitsValue("9") == 9;
  }

  lemma SplitCons<V>(p: (string, V), m: seq<(string, V)>)
    ensures Indexed([p] + m) == (if IsIndexKey(p.0) then [p] else []) + Indexed(m)
    ensures NonIndexed([p] + m) == (if IsIndexKey(p.0) then [] else [p]) + NonIndexed(m)
  {
    assert ([p] + m)[0] == p && ([p] + m)[1..] == m;
  }

  /** Four keys of which the second and the fourth are index keys. */
  lemma SplitFour(a: string, b: string, c: string, d: string)
    requires !IsIndexKey(a) && IsIndexKey(b) && !IsIndexKey(c) && IsIndexKey(d)
    ensures Indexed(KeySet([a, b, c, d])) == [(b, true), (d, true)]
    ensures NonIndexed(KeySet([a, b, c, d])) == [(a, true), (c, true)]
  {
    var m2 := [(c, true), (d, true)];
    var m1 := [(b, true)] + m2;
    SplitLastTwo(c, d);
    SplitsAs((b, true), m2, [(d, true)], [(c, true)]);
    SplitsAs((a, true), m1, [(b, true), (d, true)], [(c, true)]);
    KeySetFour(a, b, c, d);
  }

  lemma SplitLastTwo(c: string, d: string)
    requires !IsIndexKey(c) && IsIndexKey(d)
    ensures Indexed([(c, true), (d, true)]) == [(d, true)]
    ensures NonIndexed([(c, true), (d, true)]) == [(c, true)]
  {
    SplitsAs((d, true), [], [], []);
    assert [(d, true)] + [] == [(d, true)];
    SplitsAs((c, true), [(d, true)], [(d, true)], []);
    assert [(c, true)] + [(d, true)] == [(c, true), (d, true)];
  }

  lemma KeySetFour(a: string, b: string, c: string, d: string)
    ensures KeySet([a, b, c, d]) == [(a, true)] + ([(b, true)] + [(c, true), (d, true)])
  {
    var ks := [a, b, c, d];
    assert ks[1..] == [b, c, d] && ks[1..][1..] == [c, d] && ks[1..][1..][1..] == [d] && [d][1..] == [];
    assert KeySet([d]) == [(d, true)] + KeySet([]);
    assert KeySet([c, d]) == [(c, true)] + KeySet([d]);
    assert KeySet([b, c, d]) == [(b, true)] + KeySet([c, d]);
  }

  /** One more member in front of a table whose split is known. */
  lemma SplitsAs<V>(p: (string, V), m: seq<(string, V)>, i: seq<(string, V)>, n: seq<(string, V)>)
    requires Indexed(m) == i && NonIndexed(m) == n
    ensures Indexed([p] + m) == (if IsIndexKey(p.0) then [p] + i else i)
    ensures NonIndexed([p] + m) == (if IsIndexKey(p.0) then n else [p] + n)
  {
    SplitCons(p, m);
  }

  lemma ExampleSorted()
    ensures SortByIndex([("10", true), ("9", true)]) == [("9", true), ("10", true)]
  {
    ExampleKeys();
    var nine := [("9", true)];
    assert SortByIndex(nine) == InsertByIndex(("9", true), []) == nine;
    assert [("10", true), ("9", true)][1..] == nine;
    assert InsertByIndex(("10", true), nine) == nine + InsertByIndex(("10", true), []);
  }

  lemma ExampleEnumerated()
    ensures Enumerated(KeySet(["b", "10", "a", "9"])) == [("9", true), ("10", true)] + [("b", true), ("a", true)]
  {
    ExampleKeys();
    SplitFour("b", "10", "a", "9");
    ExampleSorted();
  }

  lemma ExampleEnumeratedKeys()
    ensures KeysOf([("9", true), ("10", true)] + [("b", true), ("a", true)]) == ["9", "10", "b", "a"]
  {
    var a := [("9", true), ("10", true)];
    var b := [("b", true), ("a", true)];
    KeysOfAppend(a, b);
    assert KeysOf(a) == ["9", "10"] && KeysOf(b) == ["b", "a"];
  }

  /** Ids added as `"10"` and then `"9"` are listed `"9"` first; other keys
      follow in the order they were added. */
  lemma IndicesBeforeNames()
    ensures EnumeratedKeys(["b", "10", "a", "9"]) == ["9", "10", "b", "a"]
  {
    ExampleEnumerated();
    ExampleEnumeratedKeys();
  }
}
