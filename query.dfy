/** The query-string half of URL cleaning: `parse_qs` with its default
    arguments, removal of the six tracking keys, and the `k=v[0]` join
    (scraper.py:50-58, backend/scraper.py:38-42, test_url_scraper.py:23-31). */
module Query {
  import opened Wrappers
  import opened Strings

  /** One `name=value` field of a query string, before grouping. */
  type Pair = (string, string)

  /** One key of the dictionary that `parse_qs` returns, with all its values. */
  datatype Entry = Entry(key: string, values: seq<string>)

  /** The keys that are popped from the parsed query. */
  const TrackingParams: seq<string> :=
    ["ref", "utm_source", "utm_medium", "utm_campaign", "utm_term", "utm_content"]

  /** A field as `parse_qsl` can produce it from a '&'-separated string: the
      key has no '&' or '=', the value no '&', and the value is not empty. */
  predicate WellFormed(p: Pair)
  {
    '&' !in p.0 && '=' !in p.0 && '&' !in p.1 && p.1 != []
  }

  function PairKeys(pairs: seq<Pair>): set<string>
  {
    set i | 0 <= i < |pairs| :: pairs[i].0
  }

  function KeysOf(d: seq<Entry>): set<string>
  {
    set i | 0 <= i < |d| :: d[i].key
  }

  predicate DistinctKeys(d: seq<Entry>)
  {
    forall i, j | 0 <= i < j < |d| :: d[i].key != d[j].key
  }

  /** `k1` first appears before `k2` among the fields. */
  predicate Before(pairs: seq<Pair>, k1: string, k2: string)
  {
    k1 in PairKeys(pairs) && k2 in PairKeys(pairs) && FirstIndex(pairs, k1) < FirstIndex(pairs, k2)
  }

  /** The entries are listed in order of the first appearance of their keys. */
  predicate InFirstAppearanceOrder(d: seq<Entry>, pairs: seq<Pair>)
  {
    forall i, j | 0 <= i < j < |d| :: Before(pairs, d[i].key, d[j].key)
  }

  // ---------------------------------------------------------------------
  // parse_qsl
  // ---------------------------------------------------------------------

  /** One piece between '&'s: split at the first '='; a piece without '='
      or with an empty value is dropped (`keep_blank_values=False`). */
  function ParseField(piece: string): Option<Pair>
  {
    match SplitOnce(piece, '=')
    case None => None
    case Some(nv) => if nv.1 == [] then None else Some(nv)
  }

  function ParseFields(pieces: seq<string>): (pairs: seq<Pair>)
    requires forall i | 0 <= i < |pieces| :: '&' !in pieces[i]
    ensures |pairs| <= |pieces|
    ensures forall i | 0 <= i < |pairs| :: WellFormed(pairs[i])
  {
    if pieces == [] then []
    else
      var first := match ParseField(pieces[0]) case None => [] case Some(p) => [p];
      first + ParseFields(pieces[1..])
  }

  /** `parse_qsl(q)`: the fields of the query in order. */
  function ParseQsl(q: string): (pairs: seq<Pair>)
    ensures forall i | 0 <= i < |pairs| :: WellFormed(pairs[i])
  {
    if q == [] then [] else ParseFields(Split(q, '&'))
  }

  lemma AppendAssoc<T>(x: seq<T>, y: seq<T>, z: seq<T>)
    ensures x + (y + z) == (x + y) + z
  {
  }

  lemma {:induction false} ParseFieldsAppend(a: seq<string>, b: seq<string>)
    requires forall i | 0 <= i < |a| :: '&' !in a[i]
    requires forall i | 0 <= i < |b| :: '&' !in b[i]
    ensures ParseFields(a + b) == ParseFields(a) + ParseFields(b)
  {
    if a == [] {
      assert a + b == b;
    } else {
      var ab := a + b;
      assert ab[0] == a[0] && ab[1..] == a[1..] + b;
      ParseFieldsAppend(a[1..], b);
      var first := match ParseField(a[0]) case None => [] case Some(p) => [p];
      AppendAssoc(first, ParseFields(a[1..]), ParseFields(b));
    }
  }

  /** The empty query is split too: `parse_qsl` is the fields of the pieces. */
  lemma ParseQslPieces(q: string)
    ensures ParseQsl(q) == ParseFields(Split(q, '&'))
  {
    if q == [] {
      assert Split(q, '&') == [[]];
      assert ParseField([]) == None;
    }
  }

  /** `parse_qsl` reads the fields of a query piece by piece: the fields on
      either side of a '&' come out one after the other, in order. */
  lemma ParseQslConcat(a: string, b: string)
    ensures ParseQsl(a + "&" + b) == ParseQsl(a) + ParseQsl(b)
  {
    SplitAround(a, b, '&');
    ParseQslPieces(a + "&" + b);
    ParseQslPieces(a);
    ParseQslPieces(b);
    ParseFieldsAppend(Split(a, '&'), Split(b, '&'));
  }

  /** A single piece `k=v` with a non-empty value is the one field `(k, v)`,
      split at the first '='. */
  lemma ParseQslOneField(k: string, v: string)
    requires '&' !in k && '=' !in k && '&' !in v && v != []
    ensures ParseQsl(k + "=" + v) == [(k, v)]
  {
    var piece := k + "=" + v;
    assert '&' !in piece by {
      forall i | 0 <= i < |piece| ensures piece[i] != '&' {
        if i < |k| { assert piece[i] == k[i]; }
        else if i > |k| { assert piece[i] == v[i - |k| - 1]; }
      }
    }
    SplitWithoutSep(piece, '&');
    ParseQslPieces(piece);
    var nv := SplitOnce(piece, '=').value;
    SplitOnceUnique(nv.0, nv.1, k, v, '=');
    assert ParseFields([piece]) == [(k, v)] + ParseFields([piece][1..]);
  }

  /** A piece without '=' and a piece whose value is empty give no field
      (`keep_blank_values=False`). */
  lemma ParseQslBlank(k: string)
    requires '&' !in k && '=' !in k
    ensures ParseQsl(k) == []
    ensures ParseQsl(k + "=") == []
  {
    SplitWithoutSep(k, '&');
    ParseQslPieces(k);
    assert ParseFields([k]) == [] + ParseFields([k][1..]);
    var piece := k + "=";
    assert '&' !in piece by {
      forall i | 0 <= i < |piece| ensures piece[i] != '&' {
        if i < |k| { assert piece[i] == k[i]; }
      }
    }
    SplitWithoutSep(piece, '&');
    ParseQslPieces(piece);
    var nv := SplitOnce(piece, '=').value;
    SplitOnceUnique(nv.0, nv.1, k, [], '=');
    assert ParseFields([piece]) == [] + ParseFields([piece][1..]);
  }

  // ---------------------------------------------------------------------
  // parse_qs: grouping into an insertion-ordered dictionary
  // ---------------------------------------------------------------------

  /** `d[k].append(v)` when `k` is already a key, `d[k] = [v]` otherwise. */
  function Insert(d: seq<Entry>, k: string, v: string): (r: seq<Entry>)
    requires DistinctKeys(d)
    ensures |r| == if k in KeysOf(d) then |d| else |d| + 1
    ensures forall i | 0 <= i < |d| ::
      r[i] == if d[i].key == k then Entry(k, d[i].values + [v]) else d[i]
    ensures k !in KeysOf(d) ==> r[|d|] == Entry(k, [v])
  {
    if d == [] then [Entry(k, [v])]
    else if d[0].key == k then
      assert k in KeysOf(d);
      [Entry(k, d[0].values + [v])] + d[1..]
    else
      var rest := Insert(d[1..], k, v);
      KeysOfTail(d);
      [d[0]] + rest
  }

  lemma KeysOfTail(d: seq<Entry>)
    requires d != []
    ensures KeysOf(d) == {d[0].key} + KeysOf(d[1..])
  {
    forall x | x in KeysOf(d) ensures x in {d[0].key} + KeysOf(d[1..]) {
      var i :| 0 <= i < |d| && d[i].key == x;
      if i > 0 { assert d[1..][i - 1].key == x; }
    }
    forall x | x in KeysOf(d[1..]) ensures x in KeysOf(d) {
      var i :| 0 <= i < |d[1..]| && d[1..][i].key == x;
      assert d[i + 1].key == x;
    }
  }

  lemma PairKeysOfSnoc(pairs: seq<Pair>)
    requires pairs != []
    ensures PairKeys(pairs) == PairKeys(pairs[..|pairs| - 1]) + {pairs[|pairs| - 1].0}
  {
    var n := |pairs| - 1;
    forall k | k in PairKeys(pairs) ensures k in PairKeys(pairs[..n]) + {pairs[n].0} {
      var i :| 0 <= i < |pairs| && pairs[i].0 == k;
      if i < n { assert pairs[..n][i].0 == k; }
    }
    forall k | k in PairKeys(pairs[..n]) ensures k in PairKeys(pairs) {
      var i :| 0 <= i < n && pairs[..n][i].0 == k;
      assert pairs[i].0 == k;
    }
  }

  /** A key not yet in the dictionary is appended with its one value. */
  lemma InsertNew(d: seq<Entry>, k: string, v: string)
    requires DistinctKeys(d) && k !in KeysOf(d)
    ensures Insert(d, k, v) == d + [Entry(k, [v])]
  {
    forall i | 0 <= i < |d| ensures d[i].key != k {
      assert d[i].key in KeysOf(d);
    }
  }

  /** Inserting under a key already present keeps every key in its place. */
  lemma InsertSameKeys(d: seq<Entry>, k: string, v: string)
    requires DistinctKeys(d) && k in KeysOf(d)
    ensures |Insert(d, k, v)| == |d|
    ensures forall i | 0 <= i < |d| :: Insert(d, k, v)[i].key == d[i].key
  {
  }

  lemma InsertKeys(d: seq<Entry>, k: string, v: string)
    requires DistinctKeys(d)
    ensures KeysOf(Insert(d, k, v)) == KeysOf(d) + {k}
  {
    var r := Insert(d, k, v);
    if k in KeysOf(d) {
      InsertSameKeys(d, k, v);
      forall x | x in KeysOf(r) ensures x in KeysOf(d) {
        var i :| 0 <= i < |r| && r[i].key == x;
        assert d[i].key == x;
      }
      forall x | x in KeysOf(d) ensures x in KeysOf(r) {
        var i :| 0 <= i < |d| && d[i].key == x;
        assert r[i].key == x;
      }
    } else {
      InsertNew(d, k, v);
      forall x | x in KeysOf(r) ensures x in KeysOf(d) + {k} {
        var i :| 0 <= i < |r| && r[i].key == x;
        if i < |d| { assert r[i] == d[i]; }
      }
      forall x | x in KeysOf(d) ensures x in KeysOf(r) {
        var i :| 0 <= i < |d| && d[i].key == x;
        assert r[i] == d[i];
      }
      assert r[|d|].key == k;
    }
  }

  lemma InsertDistinct(d: seq<Entry>, k: string, v: string)
    requires DistinctKeys(d)
    ensures DistinctKeys(Insert(d, k, v))
  {
    var r := Insert(d, k, v);
    if k in KeysOf(d) {
      InsertSameKeys(d, k, v);
    } else {
      InsertNew(d, k, v);
      forall i | 0 <= i < |d| ensures d[i].key != k {
        assert d[i].key in KeysOf(d);
      }
      forall i, j | 0 <= i < j < |r| ensures r[i].key != r[j].key {
        assert r[i] == d[i];
      }
    }
  }

  /** The three facts `Group` keeps across one insertion. */
  lemma InsertKeeps(d: seq<Entry>, k: string, v: string)
    requires DistinctKeys(d)
    requires forall i | 0 <= i < |d| :: |d[i].values| > 0
    ensures DistinctKeys(Insert(d, k, v))
    ensures KeysOf(Insert(d, k, v)) == KeysOf(d) + {k}
    ensures forall i | 0 <= i < |Insert(d, k, v)| :: |Insert(d, k, v)[i].values| > 0
  {
    InsertKeys(d, k, v);
    InsertDistinct(d, k, v);
    var r := Insert(d, k, v);
    forall i | 0 <= i < |r| ensures |r[i].values| > 0 {
      if i < |d| { assert r[i] == if d[i].key == k then Entry(k, d[i].values + [v]) else d[i]; }
    }
  }

  /** `parse_qs(q)` before the query is split: the loop over the fields that
      builds the dictionary, one key per distinct name, every list non-empty. */
  function Group(pairs: seq<Pair>): (d: seq<Entry>)
    ensures DistinctKeys(d)
    ensures KeysOf(d) == PairKeys(pairs)
    ensures forall i | 0 <= i < |d| :: |d[i].values| > 0
  {
    if pairs == [] then []
    else
      var n := |pairs| - 1;
      var prev := Group(pairs[..n]);
      PairKeysOfSnoc(pairs);
      InsertKeeps(prev, pairs[n].0, pairs[n].1);
      Insert(prev, pairs[n].0, pairs[n].1)
  }

  /** The values given for `k`, in order. */
  function ValuesOf(pairs: seq<Pair>, k: string): seq<string>
  {
    if pairs == [] then []
    else
      var n := |pairs| - 1;
      ValuesOf(pairs[..n], k) + (if pairs[n].0 == k then [pairs[n].1] else [])
  }

  /** The position of the first field named `k`. */
  function FirstIndex(pairs: seq<Pair>, k: string): (r: nat)
    requires k in PairKeys(pairs)
    ensures r < |pairs| && pairs[r].0 == k
    ensures forall j | 0 <= j < r :: pairs[j].0 != k
  {
    if pairs[0].0 == k then 0
    else
      assert k in PairKeys(pairs[1..]) by {
        var i :| 0 <= i < |pairs| && pairs[i].0 == k;
        assert pairs[1..][i - 1].0 == k;
      }
      1 + FirstIndex(pairs[1..], k)
  }

  lemma FirstIndexOfPrefix(pairs: seq<Pair>, n: nat, k: string)
    requires n <= |pairs|
    requires k in PairKeys(pairs[..n])
    ensures k in PairKeys(pairs)
    ensures FirstIndex(pairs, k) == FirstIndex(pairs[..n], k)
  {
    var a := FirstIndex(pairs[..n], k);
    assert pairs[a].0 == k;
    var b := FirstIndex(pairs, k);
    assert b <= a;
    assert pairs[..n][b].0 == k;
  }

  lemma {:induction false} ValuesOfAbsent(pairs: seq<Pair>, k: string)
    requires k !in PairKeys(pairs)
    ensures ValuesOf(pairs, k) == []
  {
    if pairs != [] {
      var n := |pairs| - 1;
      PairKeysOfSnoc(pairs);
      ValuesOfAbsent(pairs[..n], k);
      assert pairs[n].0 in PairKeys(pairs);
    }
  }

  /** The values of a key start with the value of its first field. */
  lemma {:induction false} ValuesOfStartsWithFirst(pairs: seq<Pair>, k: string)
    requires k in PairKeys(pairs)
    ensures |ValuesOf(pairs, k)| > 0
    ensures ValuesOf(pairs, k)[0] == pairs[FirstIndex(pairs, k)].1
  {
    var n := |pairs| - 1;
    if k in PairKeys(pairs[..n]) {
      ValuesOfStartsWithFirst(pairs[..n], k);
      FirstIndexOfPrefix(pairs, n, k);
    } else {
      ValuesOfAbsent(pairs[..n], k);
      PairKeysOfSnoc(pairs);
    }
  }

  lemma FirstIndexOfNewKey(pairs: seq<Pair>)
    requires pairs != []
    requires pairs[|pairs| - 1].0 !in PairKeys(pairs[..|pairs| - 1])
    ensures pairs[|pairs| - 1].0 in PairKeys(pairs)
    ensures FirstIndex(pairs, pairs[|pairs| - 1].0) == |pairs| - 1
  {
    var n := |pairs| - 1;
    assert pairs[n].0 in PairKeys(pairs);
    forall j | 0 <= j < n ensures pairs[j].0 != pairs[n].0 {
      assert pairs[..n][j].0 in PairKeys(pairs[..n]);
    }
  }

  lemma BeforeInLonger(pairs: seq<Pair>, k1: string, k2: string)
    requires pairs != [] && Before(pairs[..|pairs| - 1], k1, k2)
    ensures Before(pairs, k1, k2)
  {
    FirstIndexOfPrefix(pairs, |pairs| - 1, k1);
    FirstIndexOfPrefix(pairs, |pairs| - 1, k2);
  }

  lemma BeforeNewKey(pairs: seq<Pair>, k: string)
    requires pairs != [] && k in PairKeys(pairs[..|pairs| - 1])
    requires pairs[|pairs| - 1].0 !in PairKeys(pairs[..|pairs| - 1])
    ensures Before(pairs, k, pairs[|pairs| - 1].0)
  {
    FirstIndexOfPrefix(pairs, |pairs| - 1, k);
    FirstIndexOfNewKey(pairs);
  }

  /** `parse_qs` keeps every value of a key, in order. */
  lemma {:induction false} GroupValues(pairs: seq<Pair>)
    ensures forall i | 0 <= i < |Group(pairs)| ::
      Group(pairs)[i].values == ValuesOf(pairs, Group(pairs)[i].key)
  {
    if pairs != [] {
      var n := |pairs| - 1;
      var prev := Group(pairs[..n]);
      var d := Group(pairs);
      assert d == Insert(prev, pairs[n].0, pairs[n].1);
      PairKeysOfSnoc(pairs);
      GroupValues(pairs[..n]);
      forall i | 0 <= i < |d| ensures d[i].values == ValuesOf(pairs, d[i].key) {
        var key := d[i].key;
        assert ValuesOf(pairs, key) ==
          ValuesOf(pairs[..n], key) + (if pairs[n].0 == key then [pairs[n].1] else []);
        if i < |prev| {
          assert key == prev[i].key;
          assert prev[i].values == ValuesOf(pairs[..n], key);
        } else {
          assert d[i] == Entry(pairs[n].0, [pairs[n].1]);
          ValuesOfAbsent(pairs[..n], pairs[n].0);
        }
      }
    }
  }

  /** `parse_qs` lists the keys in the order of their first appearance. */
  lemma {:induction false} GroupOrder(pairs: seq<Pair>)
    ensures InFirstAppearanceOrder(Group(pairs), pairs)
  {
    if pairs != [] {
      var n := |pairs| - 1;
      var prev := Group(pairs[..n]);
      var d := Group(pairs);
      assert d == Insert(prev, pairs[n].0, pairs[n].1);
      GroupOrder(pairs[..n]);
      forall i, j | 0 <= i < j < |d| ensures Before(pairs, d[i].key, d[j].key) {
        assert d[i].key == prev[i].key;
        if j < |prev| {
          assert d[j].key == prev[j].key;
          BeforeInLonger(pairs, d[i].key, d[j].key);
        } else {
          assert d[j].key == pairs[n].0 && pairs[n].0 !in KeysOf(prev);
          assert prev[i].key in KeysOf(prev);
          BeforeNewKey(pairs, d[i].key);
        }
      }
    }
  }

  // ---------------------------------------------------------------------
  // Removing tracking keys and rebuilding the query
  // ---------------------------------------------------------------------

  /** `query_params.pop(param, None)` for each tracking key. */
  function Untracked(d: seq<Entry>): (r: seq<Entry>)
    ensures forall i | 0 <= i < |r| :: r[i] in d && r[i].key !in TrackingParams
  {
    if d == [] then []
    else (if d[0].key in TrackingParams then [] else [d[0]]) + Untracked(d[1..])
  }

  /** `(k, v[0])` for each remaining key, in dictionary order. */
  function FirstValues(d: seq<Entry>): (r: seq<Pair>)
    requires forall i | 0 <= i < |d| :: |d[i].values| > 0
    ensures |r| == |d|
    ensures forall i | 0 <= i < |d| :: r[i] == (d[i].key, d[i].values[0])
  {
    if d == [] then [] else [(d[0].key, d[0].values[0])] + FirstValues(d[1..])
  }

  /** The fields that survive cleaning. */
  function Survivors(q: string): seq<Pair>
  {
    var d := Untracked(Group(ParseQsl(q)));
    FirstValues(d)
  }

  function FieldStrings(ps: seq<Pair>): (r: seq<string>)
    ensures |r| == |ps|
    ensures forall i | 0 <= i < |ps| :: r[i] == ps[i].0 + "=" + ps[i].1
  {
    if ps == [] then [] else [ps[0].0 + "=" + ps[0].1] + FieldStrings(ps[1..])
  }

  /** `'&'.join(f"{k}={v}" ...)`. */
  function JoinFields(ps: seq<Pair>): string
  {
    Join(FieldStrings(ps), "&")
  }

  /** The cleaned query string. */
  function CleanQuery(q: string): string
  {
    JoinFields(Survivors(q))
  }

  // ---------------------------------------------------------------------
  // What cleaning promises
  // ---------------------------------------------------------------------

  lemma {:induction false} UntrackedKeepsUntracked(d: seq<Entry>, e: Entry)
    requires e in d && e.key !in TrackingParams
    ensures e in Untracked(d)
  {
    if d[0] != e {
      UntrackedKeepsUntracked(d[1..], e);
    }
  }

  lemma OrderOfTail(d: seq<Entry>, pairs: seq<Pair>)
    requires d != [] && InFirstAppearanceOrder(d, pairs)
    ensures InFirstAppearanceOrder(d[1..], pairs)
  {
    forall i, j | 0 <= i < j < |d[1..]| ensures Before(pairs, d[1..][i].key, d[1..][j].key) {
      assert d[1..][i] == d[i + 1] && d[1..][j] == d[j + 1];
    }
  }

  lemma OrderOfCons(x: Entry, t: seq<Entry>, pairs: seq<Pair>)
    requires InFirstAppearanceOrder(t, pairs)
    requires forall j | 0 <= j < |t| :: Before(pairs, x.key, t[j].key)
    ensures InFirstAppearanceOrder([x] + t, pairs)
  {
    var r := [x] + t;
    forall i, j | 0 <= i < j < |r| ensures Before(pairs, r[i].key, r[j].key) {
      assert r[j] == t[j - 1];
      if i > 0 { assert r[i] == t[i - 1]; }
    }
  }

  lemma {:induction false} UntrackedKeepsOrder(d: seq<Entry>, pairs: seq<Pair>)
    requires InFirstAppearanceOrder(d, pairs)
    ensures InFirstAppearanceOrder(Untracked(d), pairs)
  {
    if d != [] {
      var tail := Untracked(d[1..]);
      OrderOfTail(d, pairs);
      UntrackedKeepsOrder(d[1..], pairs);
      if d[0].key !in TrackingParams {
        forall j | 0 <= j < |tail| ensures Before(pairs, d[0].key, tail[j].key) {
          var m :| 0 <= m < |d[1..]| && d[1..][m] == tail[j];
          assert d[m + 1] == tail[j];
        }
        OrderOfCons(d[0], tail, pairs);
      }
    }
  }

  lemma SurvivorsAreFirstFields(q: string)
    ensures var pairs, s := ParseQsl(q), Survivors(q);
      forall i | 0 <= i < |s| ::
        s[i].0 !in TrackingParams && s[i].0 in PairKeys(pairs) &&
        s[i] == pairs[FirstIndex(pairs, s[i].0)]
  {
    var pairs := ParseQsl(q);
    var g := Group(pairs);
    var d := Untracked(g);
    var s := FirstValues(d);
    GroupValues(pairs);
    forall i | 0 <= i < |s|
      ensures s[i].0 !in TrackingParams && s[i].0 in PairKeys(pairs)
      ensures s[i] == pairs[FirstIndex(pairs, s[i].0)]
    {
      var m :| 0 <= m < |g| && g[m] == d[i];
      assert d[i].key in KeysOf(g);
      ValuesOfStartsWithFirst(pairs, d[i].key);
    }
  }

  lemma SurvivorsInOrder(q: string)
    ensures var pairs, s := ParseQsl(q), Survivors(q);
      forall i, j | 0 <= i < j < |s| :: Before(pairs, s[i].0, s[j].0)
  {
    var pairs := ParseQsl(q);
    var g := Group(pairs);
    var d := Untracked(g);
    var s := FirstValues(d);
    GroupOrder(pairs);
    UntrackedKeepsOrder(g, pairs);
    forall i, j | 0 <= i < j < |s| ensures Before(pairs, s[i].0, s[j].0) {
      assert s[i].0 == d[i].key && s[j].0 == d[j].key;
    }
  }

  lemma SurvivorKeysAreUntracked(q: string, k: string)
    requires k in PairKeys(Survivors(q))
    ensures k in PairKeys(ParseQsl(q)) && k !in TrackingParams
  {
    var g := Group(ParseQsl(q));
    var d := Untracked(g);
    var s := FirstValues(d);
    var i :| 0 <= i < |s| && s[i].0 == k;
    var m :| 0 <= m < |g| && g[m] == d[i];
    assert g[m].key in KeysOf(g);
  }

  /** The dictionary left after popping holds every untracked grouped key. */
  lemma UntrackedHoldsKey(g: seq<Entry>, k: string) returns (i: int)
    requires k in KeysOf(g) && k !in TrackingParams
    ensures 0 <= i < |Untracked(g)| && Untracked(g)[i].key == k
  {
    var m :| 0 <= m < |g| && g[m].key == k;
    UntrackedKeepsUntracked(g, g[m]);
    i :| 0 <= i < |Untracked(g)| && Untracked(g)[i] == g[m];
  }

  lemma UntrackedKeysSurvive(q: string, k: string)
    requires k in PairKeys(ParseQsl(q)) && k !in TrackingParams
    ensures k in PairKeys(Survivors(q))
  {
    var g := Group(ParseQsl(q));
    assert k in KeysOf(g);
    var i := UntrackedHoldsKey(g, k);
    assert Survivors(q)[i].0 == k;
  }

  lemma SurvivorKeys(q: string)
    ensures var pairs, s := ParseQsl(q), Survivors(q);
      forall k :: k in PairKeys(s) <==> k in PairKeys(pairs) && k !in TrackingParams
  {
    forall k ensures k in PairKeys(Survivors(q)) <==> k in PairKeys(ParseQsl(q)) && k !in TrackingParams {
      if k in PairKeys(Survivors(q)) {
        SurvivorKeysAreUntracked(q, k);
      }
      if k in PairKeys(ParseQsl(q)) && k !in TrackingParams {
        UntrackedKeysSurvive(q, k);
      }
    }
  }

  /** Cleaning keeps exactly the untracked keys, each once, each with the value
      of its first field, in order of first appearance. */
  lemma SurvivorsSpec(q: string)
    ensures var pairs, s := ParseQsl(q), Survivors(q);
      forall i | 0 <= i < |s| ::
        s[i].0 !in TrackingParams && s[i].0 in PairKeys(pairs) &&
        s[i] == pairs[FirstIndex(pairs, s[i].0)]
    ensures var pairs, s := ParseQsl(q), Survivors(q);
      forall i, j | 0 <= i < j < |s| :: Before(pairs, s[i].0, s[j].0)
    ensures var pairs, s := ParseQsl(q), Survivors(q);
      forall k :: k in PairKeys(s) <==> k in PairKeys(pairs) && k !in TrackingParams
  {
    SurvivorsAreFirstFields(q);
    SurvivorsInOrder(q);
    SurvivorKeys(q);
  }

  lemma SurvivorsWellFormed(q: string)
    ensures forall i | 0 <= i < |Survivors(q)| :: WellFormed(Survivors(q)[i])
  {
    SurvivorsSpec(q);
  }

  lemma {:induction false} ParseFieldsOfFields(ps: seq<Pair>)
    requires forall i | 0 <= i < |ps| :: WellFormed(ps[i])
    ensures forall i | 0 <= i < |FieldStrings(ps)| :: '&' !in FieldStrings(ps)[i]
    ensures ParseFields(FieldStrings(ps)) == ps
  {
    if ps != [] {
      ParseFieldsOfFields(ps[1..]);
      var f := ps[0].0 + "=" + ps[0].1;
      var nv := SplitOnce(f, '=').value;
      SplitOnceUnique(nv.0, nv.1, ps[0].0, ps[0].1, '=');
      assert ParseField(f) == Some(ps[0]);
      assert FieldStrings(ps)[1..] == FieldStrings(ps[1..]);
    }
  }

  /** Parsing the rebuilt query gives back exactly the fields it was built from. */
  lemma RebuiltQueryParses(ps: seq<Pair>)
    requires forall i | 0 <= i < |ps| :: WellFormed(ps[i])
    ensures ParseQsl(JoinFields(ps)) == ps
  {
    ParseFieldsOfFields(ps);
    if ps != [] {
      SplitJoin(FieldStrings(ps), '&');
      assert JoinFields(ps) != [] by {
        JoinSplit(JoinFields(ps), '&');
      }
    }
  }

  /** The cleaned query string carries exactly the surviving fields: no
      tracking key, and is empty only when nothing survives. */
  lemma CleanQueryParses(q: string)
    ensures ParseQsl(CleanQuery(q)) == Survivors(q)
    ensures forall i | 0 <= i < |ParseQsl(CleanQuery(q))| ::
      ParseQsl(CleanQuery(q))[i].0 !in TrackingParams
    ensures CleanQuery(q) == [] <==> Survivors(q) == []
  {
    SurvivorsWellFormed(q);
    RebuiltQueryParses(Survivors(q));
    SurvivorsSpec(q);
  }

  lemma {:induction false} GroupOfDistinct(ps: seq<Pair>)
    requires forall i, j | 0 <= i < j < |ps| :: ps[i].0 != ps[j].0
    ensures |Group(ps)| == |ps|
    ensures forall i | 0 <= i < |ps| :: Group(ps)[i] == Entry(ps[i].0, [ps[i].1])
  {
    if ps != [] {
      var n := |ps| - 1;
      var init := ps[..n];
      var prev := Group(init);
      assert ps[n].0 !in KeysOf(prev) by {
        assert ps[n].0 !in PairKeys(init);
      }
      InsertNew(prev, ps[n].0, ps[n].1);
      assert Group(ps) == prev + [Entry(ps[n].0, [ps[n].1])];
      GroupOfDistinct(init);
      forall i | 0 <= i < |ps| ensures Group(ps)[i] == Entry(ps[i].0, [ps[i].1]) {
        if i < n { assert prev[i] == Entry(init[i].0, [init[i].1]); }
      }
    }
  }

  lemma {:induction false} UntrackedOfUntracked(d: seq<Entry>)
    requires forall i | 0 <= i < |d| :: d[i].key !in TrackingParams
    ensures Untracked(d) == d
  {
    if d != [] {
      UntrackedOfUntracked(d[1..]);
    }
  }

  lemma SurvivorKeysDistinct(q: string)
    ensures forall i, j | 0 <= i < j < |Survivors(q)| :: Survivors(q)[i].0 != Survivors(q)[j].0
  {
    SurvivorsInOrder(q);
  }

  /** A query built from well-formed, untracked fields with distinct keys
      survives cleaning unchanged. */
  lemma SurvivorsOfCleanFields(s: seq<Pair>)
    requires forall i | 0 <= i < |s| :: WellFormed(s[i]) && s[i].0 !in TrackingParams
    requires forall i, j | 0 <= i < j < |s| :: s[i].0 != s[j].0
    ensures Survivors(JoinFields(s)) == s
  {
    RebuiltQueryParses(s);
    GroupOfDistinct(s);
    var g := Group(s);
    UntrackedOfUntracked(g);
    assert FirstValues(g) == s;
  }

  /** Cleaning an already cleaned query changes nothing. */
  lemma CleanQueryIdempotent(q: string)
    ensures CleanQuery(CleanQuery(q)) == CleanQuery(q)
  {
    SurvivorsWellFormed(q);
    SurvivorKeysDistinct(q);
    SurvivorsAreFirstFields(q);
    SurvivorsOfCleanFields(Survivors(q));
  }
}
