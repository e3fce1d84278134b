/** Python's `list.sort(key=..., reverse=True)` and slicing `s[:n]`, as the
    window queries use them: a stable sort into non-increasing key order,
    followed by truncation. */
module Ordering {
  import opened Wrappers

  /** Non-increasing by `key`. */
  predicate Descending<T>(s: seq<T>, key: T -> int)
  {
    forall i, j | 0 <= i < j < |s| :: key(s[i]) >= key(s[j])
  }

  /** The elements of `s` whose key is `v`, in the order of `s`. */
  function WithKey<T>(s: seq<T>, key: T -> int, v: int): (r: seq<T>)
    ensures forall x | x in r :: x in s && key(x) == v
  {
    if s == [] then []
    else (if key(s[0]) == v then [s[0]] else []) + WithKey(s[1..], key, v)
  }

  /** Places `x` in front of the first element whose key it reaches, so that it
      stays ahead of the elements with an equal key. */
  function Insert<T>(x: T, t: seq<T>, key: T -> int): (r: seq<T>)
    ensures multiset(r) == multiset(t) + multiset{x}
  {
    if t == [] || key(x) >= key(t[0]) then [x] + t
    else
      assert t == [t[0]] + t[1..];
      [t[0]] + Insert(x, t[1..], key)
  }

  /** The stable descending sort. */
  function SortDesc<T>(s: seq<T>, key: T -> int): (r: seq<T>)
    ensures multiset(r) == multiset(s)
    ensures Descending(r, key)
  {
    if s == [] then []
    else
      assert s == [s[0]] + s[1..];
      InsertDescending(s[0], SortDesc(s[1..], key), key);
      Insert(s[0], SortDesc(s[1..], key), key)
  }

  lemma {:induction false} InsertDescending<T>(x: T, t: seq<T>, key: T -> int)
    requires Descending(t, key)
    ensures Descending(Insert(x, t, key), key)
  {
    if t != [] && key(x) < key(t[0]) {
      InsertDescending(x, t[1..], key);
      var r := Insert(x, t[1..], key);
      assert multiset(r) == multiset(t[1..]) + multiset{x};
      forall j | 0 <= j < |r| ensures key(t[0]) >= key(r[j]) {
        assert r[j] in multiset(r);
        if r[j] != x {
          assert r[j] in multiset(t[1..]);
          var k :| 0 <= k < |t[1..]| && t[1..][k] == r[j];
          assert t[k + 1] == r[j];
        }
      }
    }
  }

  /** Inserting `x` only adds `x` to its own key's run, and at the front of it. */
  lemma {:induction false} InsertWithKey<T>(x: T, t: seq<T>, key: T -> int, v: int)
    ensures WithKey(Insert(x, t, key), key, v) == (if key(x) == v then [x] else []) + WithKey(t, key, v)
  {
    var r := Insert(x, t, key);
    if t != [] && key(x) < key(t[0]) {
      InsertWithKey(x, t[1..], key, v);
      assert r[0] == t[0] && r[1..] == Insert(x, t[1..], key);
      if key(t[0]) == v {
        assert key(x) != v;
      }
    } else {
      assert r[0] == x && r[1..] == t;
    }
  }

  /** Stability: records with an equal key keep their original relative order. */
  lemma {:induction false} SortDescStable<T>(s: seq<T>, key: T -> int, v: int)
    ensures WithKey(SortDesc(s, key), key, v) == WithKey(s, key, v)
  {
    if s != [] {
      SortDescStable(s[1..], key, v);
      InsertWithKey(s[0], SortDesc(s[1..], key), key, v);
    }
  }

  /** Python's `s[:n]`: a negative `n` counts from the end. */
  function Slice<T>(s: seq<T>, n: int): (r: seq<T>)
    ensures |r| <= |s| && r == s[..|r|]
    ensures n >= 0 ==> |r| == (if n < |s| then n else |s|)
    ensures n < 0 ==> |r| == (if |s| + n > 0 then |s| + n else 0)
  {
    if n >= 0 then (if n < |s| then s[..n] else s)
    else if |s| + n > 0 then s[..|s| + n]
    else []
  }

  /** Truncating a descending list keeps the highest keys: every element kept
      ranks at least as high as every element dropped, and the kept ones stay
      in order. */
  lemma SliceKeepsTop<T>(s: seq<T>, key: T -> int, n: int)
    requires Descending(s, key)
    ensures Descending(Slice(s, n), key)
    ensures forall i, j | 0 <= i < |Slice(s, n)| <= j < |s| :: key(s[i]) >= key(s[j])
  {
  }

  lemma {:induction false} WithKeyAppend<T>(a: seq<T>, b: seq<T>, key: T -> int, v: int)
    ensures WithKey(a + b, key, v) == WithKey(a, key, v) + WithKey(b, key, v)
  {
    if a != [] {
      WithKeyAppend(a[1..], b, key, v);
      assert (a + b)[1..] == a[1..] + b;
    } else {
      assert a + b == b;
    }
  }

  /** `sort(key=k, reverse=True)` followed by `[:limit]`, with no truncation
      when `limit` is `None`. */
  function TopByKey<T>(s: seq<T>, key: T -> int, limit: Option<int>): (r: seq<T>)
  {
    var sorted := SortDesc(s, key);
    if limit.None? then sorted else Slice(sorted, limit.value)
  }

  /** Three items listed lowest, highest, middle come out highest, middle,
      lowest. */
  lemma RanksThree<T>(a: T, b: T, c: T, key: T -> int)
    requires key(a) < key(c) < key(b)
    ensures TopByKey([a, b, c], key, None) == [b, c, a]
  {
    SortsTwo(b, c, key);
    InsertsLast(a, b, c, key);
    assert [a, b, c][1..] == [b, c];
  }

  lemma SortsTwo<T>(b: T, c: T, key: T -> int)
    requires key(c) < key(b)
    ensures SortDesc([b, c], key) == [b, c]
  {
    assert [b, c][1..] == [c] && [c][1..] == [];
    assert SortDesc([c], key) == [c];
  }

  lemma InsertsLast<T>(a: T, b: T, c: T, key: T -> int)
    requires key(a) < key(c) < key(b)
    ensures Insert(a, [b, c], key) == [b, c, a]
  {
    assert [b, c][1..] == [c] && [c][1..] == [];
    assert Insert(a, [c], key) == [c, a];
  }
  /** The window removes no duplicates: a record listed twice comes out twice. */
  lemma KeepsDuplicates<T>(a: T, key: T -> int)
    ensures TopByKey([a, a], key, None) == [a, a]
  {
    assert [a, a][1..] == [a] && [a][1..] == [];
    assert SortDesc([a], key) == [a];
  }


  /** In a descending list, a prefix ranks at least as high as what follows it. */
  lemma PrefixRanksFirst<T>(sorted: seq<T>, key: T -> int, m: nat)
    requires Descending(sorted, key) && m <= |sorted|
    ensures forall x, y | x in sorted[..m] && y in multiset(sorted) - multiset(sorted[..m]) :: key(x) >= key(y)
  {
    var rest := sorted[m..];
    assert sorted == sorted[..m] + rest;
    forall x, y | x in sorted[..m] && y in multiset(sorted) - multiset(sorted[..m])
      ensures key(x) >= key(y)
    {
      assert y in multiset(rest);
      var i :| 0 <= i < m && sorted[..m][i] == x;
      var j :| 0 <= j < |rest| && rest[j] == y;
      assert sorted[i] == x && sorted[m + j] == y;
    }
  }

  /** Filtering a prefix gives a prefix of the filtered list. */
  lemma WithKeyOfPrefix<T>(s: seq<T>, key: T -> int, m: nat, v: int)
    requires m <= |s|
    ensures WithKey(s[..m], key, v) <= WithKey(s, key, v)
  {
    assert s == s[..m] + s[m..];
    WithKeyAppend(s[..m], s[m..], key, v);
  }

  /** A window query returns the highest keys first, drawn from the input
      as a sub-multiset (duplicates stay, none is added): at most `limit` records, and all of them when
      there is no limit. */
  lemma TopByKeyOrdered<T>(s: seq<T>, key: T -> int, limit: Option<int>)
    ensures Descending(TopByKey(s, key, limit), key)
    ensures multiset(TopByKey(s, key, limit)) <= multiset(s)
    ensures limit.None? ==> TopByKey(s, key, limit) == SortDesc(s, key)
    ensures limit.Some? && limit.value >= 0 ==>
      |TopByKey(s, key, limit)| == (if limit.value < |s| then limit.value else |s|)
  {
    var sorted := SortDesc(s, key);
    var r := TopByKey(s, key, limit);
    assert sorted == r + sorted[|r|..];
    assert multiset(sorted) == multiset(r) + multiset(sorted[|r|..]);
    assert |sorted| == |s| by {
      assert |multiset(sorted)| == |multiset(s)|;
    }
  }

  /** Nothing a window query leaves out ranks above anything it returns. */
  lemma TopByKeyRanksFirst<T>(s: seq<T>, key: T -> int, limit: Option<int>)
    ensures forall x, y | x in TopByKey(s, key, limit) && y in multiset(s) - multiset(TopByKey(s, key, limit)) ::
      key(x) >= key(y)
  {
    var sorted := SortDesc(s, key);
    var r := TopByKey(s, key, limit);
    assert r == sorted[..|r|];
    PrefixRanksFirst(sorted, key, |r|);
  }

  /** Records with equal keys come out in their original relative order: for
      each key, the records returned are the first ones of the input. */
  lemma TopByKeyStable<T>(s: seq<T>, key: T -> int, limit: Option<int>, v: int)
    ensures WithKey(TopByKey(s, key, limit), key, v) <= WithKey(s, key, v)
  {
    var sorted := SortDesc(s, key);
    var r := TopByKey(s, key, limit);
    assert r == sorted[..|r|];
    WithKeyOfPrefix(sorted, key, |r|, v);
    SortDescStable(s, key, v);
  }
}
