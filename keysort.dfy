/** The order `Array.prototype.sort` puts strings in by default, and a sort
    of key/value lists by key in that order. */
module KeySort {
  import opened Ordered

  /** `a < b` on strings: lexicographic by character, a proper prefix first. */
  predicate Below(a: string, b: string)
    decreases |a|
  {
    b != [] && (a == [] || a[0] < b[0] || (a[0] == b[0] && Below(a[1..], b[1..])))
  }

  lemma {:induction false} BelowIrreflexive(a: string)
    ensures !Below(a, a)
    decreases |a|
  {
    if a != [] {
      BelowIrreflexive(a[1..]);
    }
  }

  lemma {:induction false} BelowAsymmetric(a: string, b: string)
    requires Below(a, b)
    ensures !Below(b, a)
    decreases |a|
  {
    if a != [] && a[0] == b[0] {
      BelowAsymmetric(a[1..], b[1..]);
    }
  }

  lemma {:induction false} BelowTransitive(a: string, b: string, c: string)
    requires Below(a, b) && Below(b, c)
    ensures Below(a, c)
    decreases |a|
  {
    if a != [] && a[0] == b[0] && b[0] == c[0] {
      BelowTransitive(a[1..], b[1..], c[1..]);
    }
  }

  lemma {:induction false} BelowTotal(a: string, b: string)
    requires a != b
    ensures Below(a, b) || Below(b, a)
    decreases |a|
  {
    if a != [] && b != [] && a[0] == b[0] {
      assert a[1..] != b[1..] by {
        assert a == [a[0]] + a[1..] && b == [b[0]] + b[1..];
      }
      BelowTotal(a[1..], b[1..]);
    }
  }

  /** Keys strictly increasing: sorted, and no key twice. */
  predicate StrictlySorted<V>(s: seq<(string, V)>) {
    forall i, j :: 0 <= i < j < |s| ==> Below(s[i].0, s[j].0)
  }

  /** `p` placed before the first entry whose key comes after its own. */
  function Insert<V(!new)>(p: (string, V), s: seq<(string, V)>): (r: seq<(string, V)>)
    ensures |r| == |s| + 1
    ensures forall x :: x in r <==> x == p || x in s
  {
    if s == [] || Below(p.0, s[0].0) then [p] + s
    else
      var r := [s[0]] + Insert(p, s[1..]);
      assert s == [s[0]] + s[1..];
      r
  }

  /** Insertion sort by key, stable. */
  function SortByKey<V(!new)>(s: seq<(string, V)>): (r: seq<(string, V)>)
    ensures |r| == |s|
    ensures forall x :: x in r <==> x in s
  {
    if s == [] then []
    else
      var r := Insert(s[0], SortByKey(s[1..]));
      assert s == [s[0]] + s[1..];
      r
  }

  /** Inserting an entry whose key is new keeps the keys strictly
      increasing. */
  lemma {:induction false} InsertSorted<V(!new)>(p: (string, V), s: seq<(string, V)>)
    requires StrictlySorted(s)
    requires forall x :: x in s ==> x.0 != p.0
    ensures StrictlySorted(Insert(p, s))
  {
    if s != [] && !Below(p.0, s[0].0) {
      assert s[0] in s;
      BelowTotal(p.0, s[0].0);
      assert forall x :: x in s[1..] ==> x in s;
      InsertSorted(p, s[1..]);
      var t := Insert(p, s[1..]);
      forall j | 0 < j < |t| + 1
        ensures Below(s[0].0, ([s[0]] + t)[j].0)
      {
        assert ([s[0]] + t)[j] == t[j - 1];
        assert t[j - 1] in t;
        if t[j - 1] != p {
          assert t[j - 1] in s[1..];
          var k :| 0 <= k < |s[1..]| && s[1..][k] == t[j - 1];
          assert s[k + 1] == t[j - 1];
        }
      }
    } else if s != [] {
      forall j | 0 < j < |s| + 1
        ensures Below(p.0, ([p] + s)[j].0)
      {
        if j > 1 {
          BelowTransitive(p.0, s[0].0, s[j - 1].0);
        }
      }
    }
  }

  /** Sorting a list with no key twice gives strictly increasing keys. */
  lemma {:induction false} SortByKeySorted<V(!new)>(s: seq<(string, V)>)
    requires Distinct(KeysOf(s))
    ensures StrictlySorted(SortByKey(s))
  {
    if s != [] {
      assert Distinct(KeysOf(s[1..])) by {
        forall i, j | 0 <= i < j < |s[1..]|
          ensures KeysOf(s[1..])[i] != KeysOf(s[1..])[j]
        {
          assert KeysOf(s)[i + 1] != KeysOf(s)[j + 1];
        }
      }
      SortByKeySorted(s[1..]);
      forall x | x in SortByKey(s[1..])
        ensures x.0 != s[0].0
      {
        var k :| 0 <= k < |s[1..]| && s[1..][k] == x;
        assert KeysOf(s)[0] != KeysOf(s)[k + 1];
      }
      InsertSorted(s[0], SortByKey(s[1..]));
    }
  }

  /** Two lists whose keys strictly increase and that hold the same entries
      are the same list. */
  lemma {:induction false} SortedUnique<V(!new)>(a: seq<(string, V)>, b: seq<(string, V)>)
    requires StrictlySorted(a) && StrictlySorted(b)
    requires forall x :: x in a <==> x in b
    ensures a == b
  {
    if a != [] {
      assert a[0] in b;
    }
    if b != [] {
      assert b[0] in a;
    }
    if a != [] && b != [] {
      if a[0] != b[0] {
        var i :| 0 <= i < |a| && a[i] == b[0];
        var j :| 0 <= j < |b| && b[j] == a[0];
        assert Below(a[0].0, a[i].0);
        assert Below(b[0].0, b[j].0);
        BelowAsymmetric(a[0].0, b[0].0);
      }
      forall x
        ensures x in a[1..] <==> x in b[1..]
      {
        if x in a[1..] {
          var i :| 0 <= i < |a[1..]| && a[1..][i] == x;
          assert Below(a[0].0, a[i + 1].0);
          BelowIrreflexive(x.0);
          assert x in b;
          assert x != b[0];
          var j :| 0 <= j < |b| && b[j] == x;
          assert b[1..][j - 1] == x;
        }
        if x in b[1..] {
          var j :| 0 <= j < |b[1..]| && b[1..][j] == x;
          assert Below(b[0].0, b[j + 1].0);
          BelowIrreflexive(x.0);
          assert x in a;
          assert x != a[0];
          var i :| 0 <= i < |a| && a[i] == x;
          assert a[1..][i - 1] == x;
        }
      }
      forall i, j | 0 <= i < j < |a[1..]|
        ensures Below(a[1..][i].0, a[1..][j].0)
      {
        assert a[1..][i] == a[i + 1] && a[1..][j] == a[j + 1];
      }
      forall i, j | 0 <= i < j < |b[1..]|
        ensures Below(b[1..][i].0, b[1..][j].0)
      {
        assert b[1..][i] == b[i + 1] && b[1..][j] == b[j + 1];
      }
      SortedUnique(a[1..], b[1..]);
      assert a == [a[0]] + a[1..] && b == [b[0]] + b[1..];
    }
  }

  /** Sorting a list with no key twice gives the same result whatever order
      its entries came in. */
  lemma SortByKeyOrderFree<V(!new)>(a: seq<(string, V)>, b: seq<(string, V)>)
    requires Distinct(KeysOf(a)) && Distinct(KeysOf(b))
    requires forall x :: x in a <==> x in b
    ensures SortByKey(a) == SortByKey(b)
  {
    SortByKeySorted(a);
    SortByKeySorted(b);
    SortedUnique(SortByKey(a), SortByKey(b));
  }

  /** A list whose keys already strictly increase is its own sort. */
  lemma SortByKeyOfSorted<V(!new)>(s: seq<(string, V)>)
    requires StrictlySorted(s)
    ensures SortByKey(s) == s
  {
    assert Distinct(KeysOf(s)) by {
      forall i, j | 0 <= i < j < |s|
        ensures KeysOf(s)[i] != KeysOf(s)[j]
      {
        BelowIrreflexive(s[i].0);
      }
    }
    SortByKeySorted(s);
    SortedUnique(SortByKey(s), s);
  }
}
