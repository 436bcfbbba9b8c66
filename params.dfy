/** Request parameters: a Python dict, whose insertion order decides the order
    of the `k=v` pairs in the query string the bridge receives. */
module Params {
  import opened Json
  import opened Text

  function Keys(d: seq<(string, Value)>): (ks: seq<string>)
    ensures |ks| == |d|
  {
    if d == [] then [] else [d[0].0] + Keys(d[1..])
  }

  predicate Distinct(ks: seq<string>)
  {
    ks == [] || (ks[0] !in ks[1..] && Distinct(ks[1..]))
  }

  /** The items of a dict, in insertion order. */
  type Dict = seq<(string, Value)>

  /** A Python dict never holds a key twice. */
  predicate IsDict(d: Dict)
  {
    Distinct(Keys(d))
  }

  lemma {:induction false} DistinctByIndex(ks: seq<string>)
    requires forall i, j :: 0 <= i < j < |ks| ==> ks[i] != ks[j]
    ensures Distinct(ks)
  {
    if ks != [] {
      assert forall j :: 0 < j < |ks| ==> ks[0] != ks[j];
      DistinctByIndex(ks[1..]);
    }
  }

  /** In a dict, looking a key up finds the value stored with it. */
  lemma {:induction false} FindAt(d: Dict, i: nat)
    requires IsDict(d) && i < |d|
    ensures Find(d, d[i].0) == Some(d[i].1)
  {
    KeysAt(d);
    if i > 0 {
      KeysCons(d);
      assert d[1..][i - 1] == d[i];
      FindAt(d[1..], i - 1);
      assert Keys(d)[0] != Keys(d)[i];
    }
  }

  lemma {:induction false} KeysAt(d: Dict)
    ensures forall i :: 0 <= i < |d| ==> Keys(d)[i] == d[i].0
  {
    if d != [] {
      KeysAt(d[1..]);
      assert Keys(d) == [d[0].0] + Keys(d[1..]);
    }
  }

  /** `d.get(k)`, as an Option. */
  function Find(d: Dict, k: string): (r: Option<Value>)
    ensures r.Some? <==> k in Keys(d)
  {
    if d == [] then None
    else
      assert Keys(d) == [d[0].0] + Keys(d[1..]);
      if d[0].0 == k then Some(d[0].1)
      else Find(d[1..], k)
  }

  /** `d[k] = v`: an existing key keeps its place and takes the new value,
      a new key goes to the end. */
  function Put(d: Dict, k: string, v: Value): (r: Dict)
    ensures Keys(r) == if k in Keys(d) then Keys(d) else Keys(d) + [k]
    ensures Find(r, k) == Some(v)
    ensures forall k' :: k' != k ==> Find(r, k') == Find(d, k')
  {
    if d == [] then [(k, v)]
    else if d[0].0 == k then
      var r := [(k, v)] + d[1..];
      assert r[1..] == d[1..];
      r
    else
      var tail := Put(d[1..], k, v);
      var r := [d[0]] + tail;
      assert r[1..] == tail;
      assert Keys(d) == [d[0].0] + Keys(d[1..]);
      r
  }

  lemma {:induction false} PutKeepsDistinct(d: Dict, k: string, v: Value)
    requires IsDict(d)
    ensures IsDict(Put(d, k, v))
  {
    var ks := Keys(d);
    if k !in ks {
      DistinctSnoc(ks, k);
    }
  }

  lemma {:induction false} DistinctSnoc(ks: seq<string>, x: string)
    requires Distinct(ks) && x !in ks
    ensures Distinct(ks + [x])
  {
    if ks != [] {
      DistinctSnoc(ks[1..], x);
      assert (ks + [x])[1..] == ks[1..] + [x];
    }
  }

  /** The keys of `news` that are not among `ks`, in their order. */
  function Fresh(ks: seq<string>, news: seq<string>): seq<string>
  {
    if news == [] then []
    else if news[0] in ks then Fresh(ks, news[1..])
    else [news[0]] + Fresh(ks, news[1..])
  }

  lemma {:induction false} FreshIgnoresAbsent(ks: seq<string>, x: string, news: seq<string>)
    requires x !in news
    ensures Fresh(ks + [x], news) == Fresh(ks, news)
  {
    if news != [] {
      FreshIgnoresAbsent(ks, x, news[1..]);
    }
  }

  /** `d.update(e)`: the items of `e` assigned one by one, in order. */
  function Update(d: Dict, e: Dict): Dict
    decreases |e|
  {
    if e == [] then d else Update(Put(d, e[0].0, e[0].1), e[1..])
  }

  lemma ConcatAssoc(a: seq<string>, b: seq<string>, c: seq<string>)
    ensures (a + b) + c == a + (b + c)
  {
  }

  lemma KeysCons(e: Dict)
    requires e != []
    ensures Keys(e) == [e[0].0] + Keys(e[1..])
    ensures IsDict(e) ==> IsDict(e[1..]) && e[0].0 !in Keys(e[1..])
  {
  }

  /** After `d.update(e)` every key of `e` holds `e`'s value and every other
      key keeps its own. */
  lemma {:induction false} UpdateFind(d: Dict, e: Dict, k: string)
    requires IsDict(e)
    ensures Find(Update(d, e), k) == if k in Keys(e) then Find(e, k) else Find(d, k)
    decreases |e|
  {
    if e != [] {
      KeysCons(e);
      FindCons(e);
      UpdateFind(Put(d, e[0].0, e[0].1), e[1..], k);
    }
  }

  /** After `d.update(e)` the keys of `d` come first, in their order, and the
      keys new to `d` follow in `e`'s order. */
  lemma {:induction false} UpdateKeys(d: Dict, e: Dict)
    requires IsDict(e)
    ensures Keys(Update(d, e)) == Keys(d) + Fresh(Keys(d), Keys(e))
    decreases |e|
  {
    if e != [] {
      KeysCons(e);
      var p := Put(d, e[0].0, e[0].1);
      UpdateKeys(p, e[1..]);
      var ks, k0, rest := Keys(d), e[0].0, Keys(e[1..]);
      var all := Keys(e);
      assert all != [] && all[0] == k0 && all[1..] == rest;
      assert Update(d, e) == Update(p, e[1..]);
      if k0 in ks {
        assert Keys(p) == ks;
        assert Fresh(ks, all) == Fresh(ks, rest);
      } else {
        assert Keys(p) == ks + [k0];
        FreshIgnoresAbsent(ks, k0, rest);
        assert Fresh(ks, all) == [k0] + Fresh(ks, rest);
        ConcatAssoc(ks, [k0], Fresh(ks, rest));
      }
    }
  }

  lemma FindCons(e: Dict)
    requires e != []
    ensures forall k :: k != e[0].0 ==> Find(e, k) == Find(e[1..], k)
    ensures Find(e, e[0].0) == Some(e[0].1)
  {
  }

  lemma {:induction false} UpdateKeepsDistinct(d: Dict, e: Dict)
    requires IsDict(d) && IsDict(e)
    ensures IsDict(Update(d, e))
    decreases |e|
  {
    if e != [] {
      assert Keys(e) == [e[0].0] + Keys(e[1..]);
      PutKeepsDistinct(d, e[0].0, e[0].1);
      UpdateKeepsDistinct(Put(d, e[0].0, e[0].1), e[1..]);
    }
  }

  /** The dict as a map, forgetting the order. */
  function ToMap(d: Dict): map<string, Value>
  {
    map k | k in Keys(d) :: Find(d, k).value
  }

  /** Updating the ordered dict agrees with overriding its map. */
  lemma UpdateIsMapOverride(d: Dict, e: Dict)
    requires IsDict(e)
    ensures ToMap(Update(d, e)) == ToMap(d) + ToMap(e)
  {
    var r := Update(d, e);
    forall k ensures Find(r, k) == if k in Keys(e) then Find(e, k) else Find(d, k) {
      UpdateFind(d, e, k);
    }
  }

  /** One `f"{k}={v}"` item. */
  function PairText(p: (string, Value)): string
  {
    p.0 + "=" + Render(p.1)
  }

  function PairTexts(d: Dict): (ps: seq<string>)
    ensures |ps| == |d|
  {
    seq(|d|, i requires 0 <= i < |d| => PairText(d[i]))
  }

  /** `"&".join(f"{k}={v}" for k, v in d.items())`. */
  function QueryString(d: Dict): string
  {
    Join(PairTexts(d), '&')
  }

  /** How a receiver reads one `k=v` item: the key runs to the first `=`. */
  function ParsePair(p: string): (string, string)
  {
    match SplitFirst(p, '=')
    case Some(kv) => kv
    case None => (p, "")
  }

  /** How a receiver reads a query string: items at `&`, then key and value. */
  function ParseQuery(q: string): seq<(string, string)>
  {
    var items := Split(q, '&');
    seq(|items|, i requires 0 <= i < |items| => ParsePair(items[i]))
  }

  /** No key or rendered value holds `&` and no key holds `=`: the pairs can
      be read back from the query string. */
  predicate QuerySafe(d: Dict)
  {
    forall i :: 0 <= i < |d| ==> '&' !in d[i].0 && '&' !in Render(d[i].1) && '=' !in d[i].0
  }

  /** The query string carries every pair, in insertion order. */
  lemma QueryStringRoundTrip(d: Dict)
    requires |d| > 0 && QuerySafe(d)
    ensures ParseQuery(QueryString(d)) == Rendered(d)
  {
    var ps := PairTexts(d);
    forall i | 0 <= i < |ps| ensures '&' !in ps[i] {
      assert ps[i] == d[i].0 + ['='] + Render(d[i].1);
    }
    SplitJoin(ps, '&');
    forall i | 0 <= i < |d| ensures ParsePair(ps[i]) == (d[i].0, Render(d[i].1)) {
      SplitFirstConcat(d[i].0, Render(d[i].1), '=');
      assert ps[i] == d[i].0 + ['='] + Render(d[i].1);
    }
  }

  /** A dict display with distinct keys: it is a dict, its keys are in
      display order, and each key finds its own value. */
  lemma DictLiteral(d: Dict)
    requires forall i, j :: 0 <= i < j < |d| ==> d[i].0 != d[j].0
    ensures IsDict(d)
    ensures forall i :: 0 <= i < |d| ==> Keys(d)[i] == d[i].0
    ensures forall i :: 0 <= i < |d| ==> Find(d, d[i].0) == Some(d[i].1)
  {
    KeysAt(d);
    DistinctByIndex(Keys(d));
    forall i | 0 <= i < |d| ensures Find(d, d[i].0) == Some(d[i].1) {
      FindAt(d, i);
    }
  }

  lemma {:induction false} KeysConcat(a: Dict, b: Dict)
    ensures Keys(a + b) == Keys(a) + Keys(b)
  {
    if a != [] {
      KeysConcat(a[1..], b);
      assert (a + b)[1..] == a[1..] + b;
      assert Keys(a + b) == [a[0].0] + Keys(a[1..] + b);
      ConcatAssoc([a[0].0], Keys(a[1..]), Keys(b));
    } else {
      assert a + b == b;
    }
  }

  lemma {:induction false} PutFresh(d: Dict, k: string, v: Value)
    requires k !in Keys(d)
    ensures Put(d, k, v) == d + [(k, v)]
  {
    if d != [] {
      assert Keys(d) == [d[0].0] + Keys(d[1..]);
      PutFresh(d[1..], k, v);
      assert [d[0]] + (d[1..] + [(k, v)]) == d + [(k, v)];
    }
  }

  /** No text of `a` is in `b`. */
  predicate Disjoint(a: seq<string>, b: seq<string>)
  {
    forall k :: k in a ==> k !in b
  }

  /** Putting the first new item appends it, and the rest stay new. */
  lemma UpdateFreshStep(d: Dict, e: Dict)
    requires e != [] && IsDict(e)
    requires Disjoint(Keys(e), Keys(d))
    ensures Update(d, e) == Update(d + [e[0]], e[1..])
    ensures IsDict(e[1..]) && Disjoint(Keys(e[1..]), Keys(d + [e[0]]))
  {
    KeysCons(e);
    assert e[0].0 in Keys(e);
    PutFresh(d, e[0].0, e[0].1);
    KeysConcat(d, [e[0]]);
    assert Keys([e[0]]) == [e[0].0];
  }

  lemma SnocConcat(d: Dict, e: Dict)
    requires e != []
    ensures (d + [e[0]]) + e[1..] == d + e
  {
    assert e == [e[0]] + e[1..];
  }

  /** Updating with keys that are all new appends the items in order. */
  lemma {:induction false} UpdateFresh(d: Dict, e: Dict)
    requires IsDict(e)
    requires Disjoint(Keys(e), Keys(d))
    ensures Update(d, e) == d + e
    decreases |e|
  {
    if e != [] {
      UpdateFreshStep(d, e);
      UpdateFresh(d + [e[0]], e[1..]);
      SnocConcat(d, e);
    }
  }

  /** The `k=v` items a receiver reads for a dict: keys and rendered values. */
  function Rendered(d: Dict): seq<(string, string)>
  {
    seq(|d|, i requires 0 <= i < |d| => (d[i].0, Render(d[i].1)))
  }
}
