/** The order in which `commitChanges` hands types to their committers.
    `Object.keys( changes )` is sorted with the comparator
    `( precedence[b] || -1 ) - ( precedence[a] || -1 )`, which puts higher
    precedence first; the engine's `Array#sort` is stable, so types of equal
    precedence keep their key order. The loop `while ( l-- )` then takes the
    sorted array from its far end. */
module CommitOrder {
  import opened Options
  import opened Ordered

  /** `precedence[ type ] || -1`: an absent or zero precedence counts as -1. */
  function Eff(p: map<string, int>, t: string): int {
    if t in p && p[t] != 0 then p[t] else -1
  }

  /** Where index `i` stands relative to index `j` in the sorted array:
      higher precedence first, ties by position. */
  predicate Before(p: map<string, int>, keys: seq<string>, i: nat, j: nat)
    requires i < |keys| && j < |keys|
  {
    Eff(p, keys[i]) > Eff(p, keys[j]) || (Eff(p, keys[i]) == Eff(p, keys[j]) && i < j)
  }

  predicate InRange(s: seq<nat>, n: nat) {
    forall i :: 0 <= i < |s| ==> s[i] < n
  }

  predicate SortedBy(p: map<string, int>, keys: seq<string>, s: seq<nat>)
    requires InRange(s, |keys|)
  {
    forall i, j :: 0 <= i < j < |s| ==> Before(p, keys, s[i], s[j])
  }

  /** One step of an insertion sort: index `x` goes after every index of at
      least its precedence. */
  function Insert(p: map<string, int>, keys: seq<string>, x: nat, s: seq<nat>): (r: seq<nat>)
    requires x < |keys| && InRange(s, |keys|)
    ensures |r| == |s| + 1 && InRange(r, |keys|)
    decreases |s|
  {
    if s == [] then [x]
    else if Eff(p, keys[s[|s| - 1]]) >= Eff(p, keys[x]) then s + [x]
    else
      var init := s[..|s| - 1];
      assert s == init + [s[|s| - 1]];
      Insert(p, keys, x, init) + [s[|s| - 1]]
  }

  lemma BeforeTransitive(p: map<string, int>, keys: seq<string>, a: nat, b: nat, c: nat)
    requires a < |keys| && b < |keys| && c < |keys|
    requires Before(p, keys, a, b) && Before(p, keys, b, c)
    ensures Before(p, keys, a, c)
  {
  }

  /** Inserting an index larger than every index placed keeps the array
      sorted: the insertion is stable. */
  lemma {:induction false} InsertSorted(p: map<string, int>, keys: seq<string>, x: nat, s: seq<nat>)
    requires x < |keys| && InRange(s, |keys|) && SortedBy(p, keys, s)
    requires forall i :: 0 <= i < |s| ==> s[i] < x
    ensures SortedBy(p, keys, Insert(p, keys, x, s))
    decreases |s|
  {
    if s != [] {
      var last := s[|s| - 1];
      var init := s[..|s| - 1];
      var r := Insert(p, keys, x, s);
      if Eff(p, keys[last]) >= Eff(p, keys[x]) {
        assert r == s + [x];
        forall i, j | 0 <= i < j < |r| ensures Before(p, keys, r[i], r[j]) {
          if j == |s| {
            assert Before(p, keys, last, x);
            if i < |s| - 1 {
              BeforeTransitive(p, keys, s[i], last, x);
            }
          }
        }
      } else {
        assert s == init + [last];
        InsertSorted(p, keys, x, init);
        var r0 := Insert(p, keys, x, init);
        assert r == r0 + [last];
        forall i, j | 0 <= i < j < |r| ensures Before(p, keys, r[i], r[j]) {
          if j == |r0| {
            if r0[i] != x {
              InsertPermutes(p, keys, x, init);
              var k :| 0 <= k < |init| && init[k] == r0[i];
              assert Before(p, keys, s[k], s[|s| - 1]);
            }
          }
        }
      }
    }
  }

  /** The indices `0 .. n-1` in sorted order. */
  function SortedIndices(p: map<string, int>, keys: seq<string>, n: nat): (r: seq<nat>)
    requires n <= |keys|
    ensures |r| == n && InRange(r, |keys|)
  {
    if n == 0 then []
    else Insert(p, keys, n - 1, SortedIndices(p, keys, n - 1))
  }

  /** Inserting adds `x` and moves nothing else in or out. */
  lemma {:induction false} InsertPermutes(p: map<string, int>, keys: seq<string>, x: nat, s: seq<nat>)
    requires x < |keys| && InRange(s, |keys|)
    ensures multiset(Insert(p, keys, x, s)) == multiset(s) + multiset{x}
    ensures forall i :: 0 <= i < |s| + 1 ==> Insert(p, keys, x, s)[i] == x || Insert(p, keys, x, s)[i] in s
    decreases |s|
  {
    if s != [] && Eff(p, keys[s[|s| - 1]]) < Eff(p, keys[x]) {
      var init := s[..|s| - 1];
      var last := s[|s| - 1];
      assert s == init + [last];
      InsertPermutes(p, keys, x, init);
      var r0 := Insert(p, keys, x, init);
      assert Insert(p, keys, x, s) == r0 + [last];
      forall i | 0 <= i < |s| ensures r0[i] == x || r0[i] in s {
        assert r0[i] == x || r0[i] in init;
      }
    }
  }

  /** The sorted indices are below `n`. */
  lemma {:induction false} SortedIndicesBelow(p: map<string, int>, keys: seq<string>, n: nat)
    requires n <= |keys|
    ensures InRange(SortedIndices(p, keys, n), n)
  {
    if n > 0 {
      var prev := SortedIndices(p, keys, n - 1);
      var r := SortedIndices(p, keys, n);
      SortedIndicesBelow(p, keys, n - 1);
      InsertPermutes(p, keys, n - 1, prev);
      forall i | 0 <= i < n ensures r[i] < n {
        if r[i] != n - 1 {
          var j :| 0 <= j < |prev| && prev[j] == r[i];
        }
      }
    }
  }

  /** The sorted indices are a permutation of `0 .. n-1`. */
  lemma {:induction false} SortedIndicesPermutes(p: map<string, int>, keys: seq<string>, n: nat)
    requires n <= |keys|
    ensures multiset(SortedIndices(p, keys, n)) == multiset(Range(n))
  {
    if n > 0 {
      SortedIndicesPermutes(p, keys, n - 1);
      InsertPermutes(p, keys, n - 1, SortedIndices(p, keys, n - 1));
      assert Range(n) == Range(n - 1) + [n - 1];
    }
  }

  lemma {:induction false} SortedIndicesSorted(p: map<string, int>, keys: seq<string>, n: nat)
    requires n <= |keys|
    ensures SortedBy(p, keys, SortedIndices(p, keys, n))
  {
    if n > 0 {
      SortedIndicesSorted(p, keys, n - 1);
      SortedIndicesBelow(p, keys, n - 1);
      InsertSorted(p, keys, n - 1, SortedIndices(p, keys, n - 1));
    }
  }

  /** Two positions of the sorted indices are in the comparator's order. */
  lemma SortedIndexBefore(p: map<string, int>, keys: seq<string>, i: nat, j: nat)
    requires i < j < |keys|
    ensures Before(p, keys, SortedIndices(p, keys, |keys|)[i], SortedIndices(p, keys, |keys|)[j])
  {
    SortedIndicesSorted(p, keys, |keys|);
  }

  function Range(n: nat): (r: seq<nat>)
    ensures |r| == n && forall i :: 0 <= i < n ==> r[i] == i
  {
    if n == 0 then [] else Range(n - 1) + [n - 1]
  }

  /** `types.sort( ... )` when a precedence table is set, and the key order
      unchanged when it is `null`. */
  function Sorted(prec: Option<map<string, int>>, keys: seq<string>): (r: seq<string>)
    ensures |r| == |keys|
  {
    match prec
    case None => keys
    case Some(p) =>
      var idx := SortedIndices(p, keys, |keys|);
      seq(|keys|, i requires 0 <= i < |keys| => keys[idx[i]])
  }

  /** With a precedence table, position `i` of the sorted array holds the
      key at the `i`-th sorted index. */
  lemma SortedAt(p: map<string, int>, keys: seq<string>, i: nat)
    requires i < |keys|
    ensures Sorted(Some(p), keys)[i] == keys[SortedIndices(p, keys, |keys|)[i]]
  {
  }

  function Reverse<T>(s: seq<T>): (r: seq<T>)
    ensures |r| == |s| && forall i :: 0 <= i < |s| ==> r[i] == s[|s| - 1 - i]
  {
    seq(|s|, i requires 0 <= i < |s| => s[|s| - 1 - i])
  }

  /** The order the `while ( l-- )` loop visits the types. */
  function Visiting(prec: Option<map<string, int>>, keys: seq<string>): seq<string> {
    Reverse(Sorted(prec, keys))
  }

  /** Every index of `0 .. n-1` occurs in a permutation of `Range(n)`, once. */
  lemma PermutationOfRange(s: seq<nat>, n: nat)
    requires multiset(s) == multiset(Range(n))
    ensures forall x :: 0 <= x < n ==> x in s
    ensures forall i, j :: 0 <= i < j < |s| ==> s[i] != s[j]
  {
    forall x | 0 <= x < n ensures x in s {
      assert Range(n)[x] == x;
      assert x in multiset(Range(n));
    }
    forall i, j | 0 <= i < j < |s| ensures s[i] != s[j] {
      if s[i] == s[j] {
        TwiceInMultiset(s, i, j);
        RangeOnce(n, s[i]);
      }
    }
  }

  lemma TwiceInMultiset(s: seq<nat>, i: nat, j: nat)
    requires i < j < |s| && s[i] == s[j]
    ensures multiset(s)[s[i]] >= 2
  {
    var x := s[i];
    var a := s[..i];
    var b := s[i + 1..];
    assert s == a + [x] + b;
    assert b[j - i - 1] == x;
    assert x in multiset(b);
  }

  lemma RangeOnce(n: nat, x: nat)
    ensures multiset(Range(n))[x] <= 1
  {
    if n > 0 {
      RangeOnce(n - 1, x);
      assert Range(n) == Range(n - 1) + [n - 1];
      if x == n - 1 {
        RangeBelow(n - 1, x);
      }
    }
  }

  lemma RangeBelow(n: nat, x: nat)
    requires x >= n
    ensures x !in multiset(Range(n))
  {
  }

  /** Sorting only reorders: the same types, each once when the keys are
      distinct. */
  lemma SortedPermutes(prec: Option<map<string, int>>, keys: seq<string>)
    ensures forall t :: t in Sorted(prec, keys) <==> t in keys
    ensures Distinct(keys) ==> Distinct(Sorted(prec, keys))
  {
    if prec.Some? {
      var p := prec.value;
      var idx := SortedIndices(p, keys, |keys|);
      SortedIndicesPermutes(p, keys, |keys|);
      PermutationOfRange(idx, |keys|);
      var r := Sorted(prec, keys);
      forall t | t in keys ensures t in r {
        var k :| 0 <= k < |keys| && keys[k] == t;
        assert k in idx;
        var i :| 0 <= i < |idx| && idx[i] == k;
        SortedAt(p, keys, i);
        assert r[i] == t;
      }
      forall t | t in r ensures t in keys {
        var i :| 0 <= i < |r| && r[i] == t;
        SortedAt(p, keys, i);
      }
      if Distinct(keys) {
        forall i, j | 0 <= i < j < |r| ensures r[i] != r[j] {
          SortedAt(p, keys, i);
          SortedAt(p, keys, j);
          assert idx[i] != idx[j];
        }
      }
    }
  }

  /** With a precedence table, the loop visits types by non-decreasing
      precedence. */
  lemma VisitingAscends(p: map<string, int>, keys: seq<string>)
    ensures forall i, j :: 0 <= i < j < |keys| ==>
      Eff(p, Visiting(Some(p), keys)[i]) <= Eff(p, Visiting(Some(p), keys)[j])
  {
    var n := |keys|;
    var idx := SortedIndices(p, keys, n);
    var sorted := Sorted(Some(p), keys);
    var v := Visiting(Some(p), keys);
    forall i, j | 0 <= i < j < n ensures Eff(p, v[i]) <= Eff(p, v[j]) {
      var i', j' := n - 1 - i, n - 1 - j;
      SortedAt(p, keys, i');
      SortedAt(p, keys, j');
      SortedIndexBefore(p, keys, j', i');
      assert v[i] == sorted[i'] == keys[idx[i']];
      assert v[j] == sorted[j'] == keys[idx[j']];
      assert 0 <= j' < i' < n;
      assert Before(p, keys, idx[j'], idx[i']);
    }
  }

  /** Among distinct types of equal precedence, the one whose key came later
      is visited first. */
  lemma VisitingTiesReversed(p: map<string, int>, keys: seq<string>, i: nat, j: nat, a: nat, b: nat)
    requires Distinct(keys)
    requires i < j < |keys| && a < |keys| && b < |keys|
    requires Visiting(Some(p), keys)[i] == keys[a] && Visiting(Some(p), keys)[j] == keys[b]
    requires Eff(p, keys[a]) == Eff(p, keys[b])
    ensures b < a
  {
    var n := |keys|;
    var idx := SortedIndices(p, keys, n);
    var sorted := Sorted(Some(p), keys);
    var v := Visiting(Some(p), keys);
    var i', j' := n - 1 - i, n - 1 - j;
    SortedAt(p, keys, i');
    SortedAt(p, keys, j');
    SortedIndexBefore(p, keys, j', i');
    assert v[i] == sorted[i'] == keys[idx[i']];
    assert v[j] == sorted[j'] == keys[idx[j']];
    assert idx[i'] == a;
    assert idx[j'] == b;
    assert 0 <= j' < i' < n;
    assert Before(p, keys, idx[j'], idx[i']);
  }

  /** Without a precedence table the loop visits the keys last to first. */
  lemma VisitingUnsorted(keys: seq<string>)
    ensures Visiting(None, keys) == Reverse(keys)
  {
  }
}
