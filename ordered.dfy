/** Insertion-ordered collections, the way the engine's JavaScript objects and
    arrays hold their contents: a key/value list keeps its keys in the order
    they were first added, assigning an existing key keeps its place, and
    `Array#include` appends an element only when it is absent. The order in
    which JavaScript enumerates an object's keys differs from this one when
    some keys are array indices; `OwnKeys` models it. */
module Ordered {
  import opened Options

  predicate Distinct<T(==)>(s: seq<T>) {
    forall i, j :: 0 <= i < j < |s| ==> s[i] != s[j]
  }

  /** In a sequence without repeats, no element occurs before its own
      position. */
  lemma DistinctNotBefore<T>(s: seq<T>, k: nat)
    requires Distinct(s) && k < |s|
    ensures s[k] !in s[..k]
  {
    forall j | 0 <= j < k ensures s[..k][j] != s[k] {
      assert s[..k][j] == s[j];
    }
  }

  function KeysOf<K, V>(m: seq<(K, V)>): (ks: seq<K>)
    ensures |ks| == |m| && forall i {:trigger ks[i]} :: 0 <= i < |m| ==> ks[i] == m[i].0
  {
    if m == [] then [] else [m[0].0] + KeysOf(m[1..])
  }

  function ValuesOf<K, V>(m: seq<(K, V)>): (vs: seq<V>)
    ensures |vs| == |m| && forall i {:trigger vs[i]} :: 0 <= i < |m| ==> vs[i] == m[i].1
  {
    if m == [] then [] else [m[0].1] + ValuesOf(m[1..])
  }

  /** `m[k]`, the first value stored under `k`. */
  function Get<K(==), V>(m: seq<(K, V)>, k: K): (r: Option<V>)
    ensures r.None? <==> k !in KeysOf(m)
    ensures r.Some? ==> (k, r.value) in m
  {
    if m == [] then None
    else if m[0].0 == k then Some(m[0].1)
    else Get(m[1..], k)
  }

  /** `m[k] = v`: overwrite in place when present, append otherwise. */
  function Put<K(==,!new), V>(m: seq<(K, V)>, k: K, v: V): (r: seq<(K, V)>)
    ensures Get(r, k) == Some(v)
    ensures forall j :: j != k ==> Get(r, j) == Get(m, j)
    ensures k in KeysOf(m) ==> KeysOf(r) == KeysOf(m)
    ensures k !in KeysOf(m) ==> KeysOf(r) == KeysOf(m) + [k]
  {
    if m == [] then [(k, v)]
    else if m[0].0 == k then
      assert ([(k, v)] + m[1..])[1..] == m[1..];
      [(k, v)] + m[1..]
    else
      var r := Put(m[1..], k, v);
      assert ([m[0]] + r)[1..] == r;
      [m[0]] + r
  }

  /** `m[k] = v` leaves every other entry as it was. */
  lemma {:induction false} PutEntries<K(!new), V(!new)>(m: seq<(K, V)>, k: K, v: V)
    ensures forall e :: e in Put(m, k, v) ==> e in m || e == (k, v)
  {
    if m != [] && m[0].0 != k {
      PutEntries(m[1..], k, v);
      assert Put(m, k, v) == [m[0]] + Put(m[1..], k, v);
    }
  }

  lemma PutKeepsDistinct<K(!new), V>(m: seq<(K, V)>, k: K, v: V)
    requires Distinct(KeysOf(m))
    ensures Distinct(KeysOf(Put(m, k, v)))
  {
  }

  /** `delete m[k]`. */
  function Remove<K(==,!new), V(!new)>(m: seq<(K, V)>, k: K): (r: seq<(K, V)>)
    ensures |r| <= |m|
  {
    if m == [] then []
    else if m[0].0 == k then Remove(m[1..], k)
    else [m[0]] + Remove(m[1..], k)
  }

  /** The entries of `m` whose key is not in `gone`, in their order. */
  function Without<K(==,!new), V(!new)>(m: seq<(K, V)>, gone: set<K>): (r: seq<(K, V)>)
    ensures |r| <= |m|
  {
    if m == [] then []
    else if m[0].0 in gone then Without(m[1..], gone)
    else [m[0]] + Without(m[1..], gone)
  }

  /** `delete m[ k ]` keeps every other entry. */
  lemma {:induction false} RemoveMembers<K(!new), V(!new)>(m: seq<(K, V)>, k: K)
    ensures forall e :: e in Remove(m, k) <==> e in m && e.0 != k
  {
    if m != [] {
      RemoveMembers(m[1..], k);
      assert m == [m[0]] + m[1..];
    }
  }

  /** Deleting the keys of `gone` keeps exactly the other entries. */
  lemma {:induction false} WithoutMembers<K(!new), V(!new)>(m: seq<(K, V)>, gone: set<K>)
    ensures forall e :: e in Without(m, gone) <==> e in m && e.0 !in gone
  {
    if m != [] {
      WithoutMembers(m[1..], gone);
      assert m == [m[0]] + m[1..];
    }
  }

  lemma {:induction false} RemoveFromWithout<K(!new), V(!new)>(m: seq<(K, V)>, gone: set<K>, k: K)
    ensures Remove(Without(m, gone), k) == Without(m, gone + {k})
  {
    if m != [] {
      RemoveFromWithout(m[1..], gone, k);
    }
  }

  lemma {:induction false} GetWithout<K(!new), V(!new)>(m: seq<(K, V)>, gone: set<K>, k: K)
    requires k !in gone
    ensures Get(Without(m, gone), k) == Get(m, k)
  {
    if m != [] {
      GetWithout(m[1..], gone, k);
      if m[0].0 !in gone {
        assert Without(m, gone) == [m[0]] + Without(m[1..], gone);
        assert ([m[0]] + Without(m[1..], gone))[1..] == Without(m[1..], gone);
      }
    }
  }

  /** Deleting keys from a map with distinct keys leaves distinct keys. */
  lemma {:induction false} WithoutKeepsDistinct<K(!new), V(!new)>(m: seq<(K, V)>, gone: set<K>)
    requires Distinct(KeysOf(m))
    ensures Distinct(KeysOf(Without(m, gone)))
  {
    if m != [] {
      var t := m[1..];
      assert Distinct(KeysOf(t)) by {
        forall i, j | 0 <= i < j < |t| ensures KeysOf(t)[i] != KeysOf(t)[j] {
          assert KeysOf(m)[i + 1] == t[i].0 && KeysOf(m)[j + 1] == t[j].0;
        }
      }
      WithoutKeepsDistinct(t, gone);
      WithoutMembers(t, gone);
      if m[0].0 !in gone {
        var w := Without(t, gone);
        var r := [m[0]] + w;
        assert Without(m, gone) == r;
        forall e | e in w ensures e.0 != m[0].0 {
          var k :| 0 <= k < |t| && t[k] == e;
          assert KeysOf(m)[k + 1] == e.0 && KeysOf(m)[0] == m[0].0;
        }
        forall i, j | 0 <= i < j < |r| ensures KeysOf(r)[i] != KeysOf(r)[j] {
          assert r[j] == w[j - 1] && r[j] in w;
          if i > 0 {
            assert KeysOf(w)[i - 1] == r[i].0 && KeysOf(w)[j - 1] == r[j].0;
          }
        }
      }
    }
  }

  lemma WithoutNothing<K(!new), V(!new)>(m: seq<(K, V)>)
    ensures Without(m, {}) == m
  {
  }

  /** `a.include(x)`: append `x` unless it is already an element. */
  function Include<T(==)>(s: seq<T>, x: T): (r: seq<T>)
    ensures x in s ==> r == s
    ensures x !in s ==> r == s + [x]
    ensures Distinct(s) ==> Distinct(r)
  {
    if x in s then s else s + [x]
  }

  /** The `while ( l-- ) { set[ ids[l] ] = true; }` walk: the ids are added
      to the set from the last to the first. */
  function MergeFromEnd<T(==,!new)>(set_: seq<T>, ids: seq<T>): (r: seq<T>)
    ensures Distinct(set_) ==> Distinct(r)
    ensures forall x :: x in r <==> x in set_ || x in ids
    ensures |set_| <= |r| && r[..|set_|] == set_
    decreases ids
  {
    if ids == [] then set_
    else MergeFromEnd(Include(set_, ids[|ids| - 1]), ids[..|ids| - 1])
  }

  /** One step of that walk, for the first `l` ids. */
  lemma MergeStep<T(!new)>(set_: seq<T>, ids: seq<T>, l: nat)
    requires 0 < l <= |ids|
    ensures MergeFromEnd(set_, ids[..l]) == MergeFromEnd(Include(set_, ids[l - 1]), ids[..l - 1])
  {
    assert ids[..l][..l - 1] == ids[..l - 1];
  }

  /** The results of `f` on each element of `s`, concatenated in order. */
  function ConcatMap<T, U>(f: T -> seq<U>, s: seq<T>): seq<U>
    decreases |s|
  {
    if s == [] then [] else ConcatMap(f, s[..|s| - 1]) + f(s[|s| - 1])
  }

  lemma {:induction false} ConcatMapAppend<T, U>(f: T -> seq<U>, a: seq<T>, b: seq<T>)
    ensures ConcatMap(f, a + b) == ConcatMap(f, a) + ConcatMap(f, b)
    decreases |b|
  {
    if b == [] {
      assert a + b == a;
    } else {
      assert (a + b)[..|a + b| - 1] == a + b[..|b| - 1];
      ConcatMapAppend(f, a, b[..|b| - 1]);
    }
  }

  /** One more element adds its own results at the end. */
  lemma ConcatMapSnoc<T, U>(f: T -> seq<U>, s: seq<T>, i: nat)
    requires i < |s|
    ensures ConcatMap(f, s[..i + 1]) == ConcatMap(f, s[..i]) + f(s[i])
  {
    assert s[..i + 1][..i] == s[..i];
  }

  /** When `f` gives one result per element, the whole is those results in order. */
  lemma {:induction false} ConcatMapSingletons<T, U>(f: T -> seq<U>, g: T -> U, s: seq<T>)
    requires forall i :: 0 <= i < |s| ==> f(s[i]) == [g(s[i])]
    ensures |ConcatMap(f, s)| == |s|
    ensures forall k :: 0 <= k < |s| ==> ConcatMap(f, s)[k] == g(s[k])
    decreases |s|
  {
    if s != [] {
      var n := |s| - 1;
      var init := s[..n];
      assert forall i :: 0 <= i < |init| ==> init[i] == s[i];
      ConcatMapSingletons(f, g, init);
      assert ConcatMap(f, s) == ConcatMap(f, init) + [g(s[n])];
    }
  }

  /** The results for any one element occur, contiguously, in the whole. */
  lemma ConcatMapSplit<T, U>(f: T -> seq<U>, s: seq<T>, k: nat)
    requires k < |s|
    ensures ConcatMap(f, s) == ConcatMap(f, s[..k]) + f(s[k]) + ConcatMap(f, s[k + 1..])
  {
    assert s == s[..k + 1] + s[k + 1..];
    ConcatMapAppend(f, s[..k + 1], s[k + 1..]);
    ConcatMapSnoc(f, s, k);
  }
}
