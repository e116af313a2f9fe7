/** Python's insertion-ordered `dict`, as a list of `(key, value)` entries with
    distinct keys: `dict(pairs)`, lookup and item update. */
module Dicts {
  import opened Wrappers

  /** The keys of a list of pairs, in order. */
  function KeysOf<K, V>(ps: seq<(K, V)>): (r: seq<K>)
    ensures |r| == |ps| && forall i :: 0 <= i < |ps| ==> r[i] == ps[i].0
  {
    seq(|ps|, i requires 0 <= i < |ps| => ps[i].0)
  }

  /** The values of a list of pairs, in order: `d.values()`. */
  function ValuesOf<K, V>(ps: seq<(K, V)>): (r: seq<V>)
    ensures |r| == |ps| && forall i :: 0 <= i < |ps| ==> r[i] == ps[i].1
  {
    seq(|ps|, i requires 0 <= i < |ps| => ps[i].1)
  }

  predicate DistinctKeys<K(==), V>(d: seq<(K, V)>) {
    forall i, j :: 0 <= i < j < |d| ==> d[i].0 != d[j].0
  }

  /** The elements of `ks` in order of first occurrence. */
  function Dedup<K(==)>(ks: seq<K>): (r: seq<K>)
    ensures forall i :: 0 <= i < |ks| ==> ks[i] in r
    ensures forall i :: 0 <= i < |r| ==> r[i] in ks
    ensures forall i, j :: 0 <= i < j < |r| ==> r[i] != r[j]
  {
    if ks == [] then []
    else
      var d := Dedup(ks[..|ks| - 1]);
      var k := ks[|ks| - 1];
      assert ks == ks[..|ks| - 1] + [k];
      if k in d then d else d + [k]
  }

  /** The position of the first occurrence of `k` in `ks`. */
  function FirstIndex<K(==)>(ks: seq<K>, k: K): (i: nat)
    requires k in ks
    ensures i < |ks| && ks[i] == k
    ensures forall m :: 0 <= m < i ==> ks[m] != k
  {
    if ks[0] == k then 0 else 1 + FirstIndex(ks[1..], k)
  }

  /** Dedup keeps the order of first occurrences. */
  lemma DedupOrder<K>(ks: seq<K>)
    ensures forall i, j :: 0 <= i < j < |Dedup(ks)| ==> FirstIndex(ks, Dedup(ks)[i]) < FirstIndex(ks, Dedup(ks)[j])
  {
    forall i, j | 0 <= i < j < |Dedup(ks)|
      ensures FirstIndex(ks, Dedup(ks)[i]) < FirstIndex(ks, Dedup(ks)[j])
    {
      DedupOrderPair(ks, i, j);
    }
  }

  /** One pair of positions of `DedupOrder`, by induction on `ks`. */
  lemma {:induction false} DedupOrderPair<K>(ks: seq<K>, i: nat, j: nat)
    requires i < j < |Dedup(ks)|
    ensures FirstIndex(ks, Dedup(ks)[i]) < FirstIndex(ks, Dedup(ks)[j])
  {
    var p, k := ks[..|ks| - 1], ks[|ks| - 1];
    assert ks == p + [k];
    DedupSnoc(p, k);
    var d := Dedup(p);
    FirstIndexPrefix(p, k, d[i]);
    if j < |d| {
      DedupOrderPair(p, i, j);
      FirstIndexPrefix(p, k, d[j]);
    } else {
      FirstIndexLast(p, k);
    }
  }

  lemma DedupSnoc<K>(p: seq<K>, k: K)
    ensures Dedup(p + [k]) == if k in Dedup(p) then Dedup(p) else Dedup(p) + [k]
  {
    assert (p + [k])[..|p|] == p;
  }

  lemma FirstIndexLast<K>(p: seq<K>, k: K)
    requires k !in p
    ensures FirstIndex(p + [k], k) == |p|
  {
    assert (p + [k])[|p|] == k;
  }

  lemma FirstIndexPrefix<K>(p: seq<K>, k: K, x: K)
    requires x in p
    ensures FirstIndex(p + [k], x) == FirstIndex(p, x)
  {
    var i, i2 := FirstIndex(p, x), FirstIndex(p + [k], x);
    assert (p + [k])[i] == x;
  }

  /** `d[k]`, None for a missing key. */
  function Get<K(==), V>(d: seq<(K, V)>, k: K): (r: Option<V>)
    ensures r.None? <==> k !in KeysOf(d)
    ensures r.Some? ==> (k, r.value) in d
  {
    if d == [] then None
    else if d[0].0 == k then Some(d[0].1)
    else Get(d[1..], k)
  }

  /** The position of key `k` in `d`. */
  function IndexOf<K(==), V>(d: seq<(K, V)>, k: K): (i: nat)
    requires k in KeysOf(d)
    ensures i < |d| && d[i].0 == k
  {
    if d[0].0 == k then 0
    else
      assert k in KeysOf(d[1..]) by {
        var m :| 0 <= m < |KeysOf(d)| && KeysOf(d)[m] == k;
        assert KeysOf(d[1..])[m - 1] == k;
      }
      1 + IndexOf(d[1..], k)
  }

  /** `d[k] = v`: an existing key keeps its position, a new one goes last. */
  function Put<K(==), V>(d: seq<(K, V)>, k: K, v: V): (r: seq<(K, V)>)
    requires DistinctKeys(d)
    ensures KeysOf(r) == if k in KeysOf(d) then KeysOf(d) else KeysOf(d) + [k]
    ensures DistinctKeys(r)
    ensures forall i :: 0 <= i < |r| ==> r[i] == if r[i].0 == k then (k, v) else d[i]
  {
    if k in KeysOf(d) then
      var r := d[IndexOf(d, k) := (k, v)];
      assert KeysOf(r) == KeysOf(d);
      r
    else
      var r := d + [(k, v)];
      assert KeysOf(r) == KeysOf(d) + [k];
      r
  }

  lemma PutNew<K, V>(d: seq<(K, V)>, k: K, v: V)
    requires DistinctKeys(d) && k !in KeysOf(d)
    ensures Put(d, k, v) == d + [(k, v)]
  {
  }

  /** The value of the last pair carrying key `k`. */
  function LastValue<K(==), V>(ps: seq<(K, V)>, k: K): V
    requires k in KeysOf(ps)
  {
    var last := ps[|ps| - 1];
    if last.0 == k then last.1
    else
      assert KeysOf(ps) == KeysOf(ps[..|ps| - 1]) + [last.0];
      LastValue(ps[..|ps| - 1], k)
  }

  /** `dict(pairs)`: one entry per distinct key, in order of first occurrence,
      holding the value of the last pair with that key. */
  function DictFromPairs<K(==), V>(ps: seq<(K, V)>): (r: seq<(K, V)>)
    ensures KeysOf(r) == Dedup(KeysOf(ps))
    ensures DistinctKeys(r)
    ensures forall i :: 0 <= i < |r| ==> r[i].0 in KeysOf(ps) && r[i].1 == LastValue(ps, r[i].0)
  {
    if ps == [] then []
    else
      var prefix := ps[..|ps| - 1];
      var last := ps[|ps| - 1];
      var d := DictFromPairs(prefix);
      var r := Put(d, last.0, last.1);
      PairsSnoc(ps);
      PutLastValues(ps, d);
      r
  }

  /** Putting the last pair into `dict` of the others keeps every entry at the
      last value its key has among all the pairs. */
  lemma PutLastValues<K, V>(ps: seq<(K, V)>, d: seq<(K, V)>)
    requires ps != [] && DistinctKeys(d)
    requires forall i :: 0 <= i < |d| ==>
      d[i].0 in KeysOf(ps[..|ps| - 1]) && d[i].1 == LastValue(ps[..|ps| - 1], d[i].0)
    ensures var r := Put(d, ps[|ps| - 1].0, ps[|ps| - 1].1);
      forall i :: 0 <= i < |r| ==> r[i].0 in KeysOf(ps) && r[i].1 == LastValue(ps, r[i].0)
  {
    var prefix := ps[..|ps| - 1];
    var last := ps[|ps| - 1];
    var r := Put(d, last.0, last.1);
    PairsSnoc(ps);
    forall i | 0 <= i < |r| ensures r[i].0 in KeysOf(ps) && r[i].1 == LastValue(ps, r[i].0) {
      if r[i].0 != last.0 {
        assert r[i] == d[i];
        assert d[i].0 in KeysOf(prefix);
        assert KeysOf(ps) == KeysOf(prefix) + [last.0];
      }
    }
  }

  /** `dict(pairs + [x])` is `dict(pairs)` followed by the item assignment of `x`. */
  lemma DictFromPairsSnoc<K, V>(ps: seq<(K, V)>, x: (K, V))
    ensures DictFromPairs(ps + [x]) == Put(DictFromPairs(ps), x.0, x.1)
  {
    var qs := ps + [x];
    assert qs[..|qs| - 1] == ps;
    assert qs[|qs| - 1] == x;
  }

  lemma PairsSnoc<K, V>(ps: seq<(K, V)>)
    requires ps != []
    ensures KeysOf(ps) == KeysOf(ps[..|ps| - 1]) + [ps[|ps| - 1].0]
    ensures Dedup(KeysOf(ps)) ==
      var d := Dedup(KeysOf(ps[..|ps| - 1]));
      if ps[|ps| - 1].0 in d then d else d + [ps[|ps| - 1].0]
  {
    var ks := KeysOf(ps);
    assert ks == KeysOf(ps[..|ps| - 1]) + [ps[|ps| - 1].0];
    assert ks[..|ks| - 1] == KeysOf(ps[..|ps| - 1]);
  }

  lemma {:induction false} LastValueIsPair<K, V>(ps: seq<(K, V)>, k: K)
    requires k in KeysOf(ps)
    ensures (k, LastValue(ps, k)) in ps
  {
    var prefix := ps[..|ps| - 1];
    if ps[|ps| - 1].0 != k {
      assert KeysOf(ps) == KeysOf(prefix) + [ps[|ps| - 1].0];
      LastValueIsPair(prefix, k);
      assert forall x :: x in prefix ==> x in ps;
    }
  }

  /** Every entry of `dict(pairs)` is one of the pairs. */
  lemma DictEntriesArePairs<K, V>(ps: seq<(K, V)>)
    ensures forall x :: x in DictFromPairs(ps) ==> x in ps
  {
    var r := DictFromPairs(ps);
    forall x | x in r ensures x in ps {
      var i :| 0 <= i < |r| && r[i] == x;
      LastValueIsPair(ps, x.0);
    }
  }

  /** Building a dictionary from pairs whose keys are already distinct keeps
      the pairs as they are. */
  lemma {:induction false} DictFromDistinctPairs<K, V>(ps: seq<(K, V)>)
    requires DistinctKeys(ps)
    ensures DictFromPairs(ps) == ps
  {
    if ps != [] {
      var prefix := ps[..|ps| - 1];
      var last := ps[|ps| - 1];
      DistinctPrefix(ps);
      DictFromDistinctPairs(prefix);
      assert DictFromPairs(ps) == Put(prefix, last.0, last.1);
      PutNew(prefix, last.0, last.1);
      SplitLast(ps);
    }
  }

  lemma SplitLast<K, V>(ps: seq<(K, V)>)
    requires ps != []
    ensures ps == ps[..|ps| - 1] + [(ps[|ps| - 1].0, ps[|ps| - 1].1)]
  {
  }

  /** Without its last pair, a list with distinct keys still has distinct
      keys, none of them the last pair's key. */
  lemma DistinctPrefix<K, V>(ps: seq<(K, V)>)
    requires ps != [] && DistinctKeys(ps)
    ensures DistinctKeys(ps[..|ps| - 1]) && ps[|ps| - 1].0 !in KeysOf(ps[..|ps| - 1])
  {
    var prefix := ps[..|ps| - 1];
    assert forall i :: 0 <= i < |prefix| ==> prefix[i] == ps[i];
    var ks := KeysOf(prefix);
    forall i | 0 <= i < |ks| ensures ks[i] != ps[|ps| - 1].0 {
      assert ks[i] == ps[i].0;
    }
  }


  /** When each pair's value is a function of its key, the last pair with a
      key holds that function's value. */
  lemma {:induction false} LastValueOfKeyed<K, V>(ps: seq<(K, V)>, k: K, f: K -> V)
    requires k in KeysOf(ps)
    requires forall i :: 0 <= i < |ps| ==> ps[i].1 == f(ps[i].0)
    ensures LastValue(ps, k) == f(k)
  {
    var prefix := ps[..|ps| - 1];
    if ps[|ps| - 1].0 != k {
      assert KeysOf(ps) == KeysOf(prefix) + [ps[|ps| - 1].0];
      LastValueOfKeyed(prefix, k, f);
    }
  }

  /** A dictionary built from pairs whose value is a function of the key maps
      every key it was given to that function's value. */
  lemma GetKeyed<K, V>(ps: seq<(K, V)>, k: K, f: K -> V)
    requires k in KeysOf(ps)
    requires forall i :: 0 <= i < |ps| ==> ps[i].1 == f(ps[i].0)
    ensures Get(DictFromPairs(ps), k) == Some(f(k))
  {
    var d := DictFromPairs(ps);
    assert k in Dedup(KeysOf(ps));
    var g := Get(d, k);
    var j :| 0 <= j < |d| && d[j] == (k, g.value);
    LastValueOfKeyed(ps, k, f);
  }
}
