/**
 * Insertion-ordered dictionaries keyed by field name, with the behaviour of
 * the framework's `SortedDict`: a list of (name, value) pairs in which a key
 * that is assigned again keeps its position and takes the new value, and a
 * key seen for the first time goes to the end.
 */
module OrderedMaps {
  import opened Wrappers

  type OrderedMap<V> = seq<(string, V)>

  predicate Distinct(xs: seq<string>) {
    forall i, j :: 0 <= i < j < |xs| ==> xs[i] != xs[j]
  }

  function Keys<V>(m: OrderedMap<V>): (ks: seq<string>)
    ensures |ks| == |m|
    ensures forall i :: 0 <= i < |m| ==> ks[i] == m[i].0
  {
    if m == [] then [] else [m[0].0] + Keys(m[1..])
  }

  predicate KeysUnique<V>(m: OrderedMap<V>) {
    Distinct(Keys(m))
  }

  /** Position of the first occurrence of `x` in `xs`. */
  function IndexOf(xs: seq<string>, x: string): (i: nat)
    requires x in xs
    ensures i < |xs| && xs[i] == x
    ensures forall j :: 0 <= j < i ==> xs[j] != x
  {
    if xs[0] == x then 0 else 1 + IndexOf(xs[1..], x)
  }

  /** The elements of `ks` all occur in `ref`, in the order of their first occurrence there. */
  predicate OrderedBy(ks: seq<string>, ref: seq<string>) {
    && (forall i :: 0 <= i < |ks| ==> ks[i] in ref)
    && forall i, j :: 0 <= i < j < |ks| ==> IndexOf(ref, ks[i]) < IndexOf(ref, ks[j])
  }

  /** Elements listed in the order of a reference list never repeat. */
  lemma OrderedByDistinct(ks: seq<string>, ref: seq<string>)
    requires OrderedBy(ks, ref)
    ensures Distinct(ks)
  {
  }

  /** Appending a new element to the reference list keeps an order, and the new element may follow the rest. */
  lemma OrderedBySnoc(ks: seq<string>, ref: seq<string>, x: string)
    requires OrderedBy(ks, ref) && x !in ref
    ensures OrderedBy(ks, ref + [x])
    ensures OrderedBy(ks + [x], ref + [x])
  {
    var ref' := ref + [x];
    forall y | y in ref
      ensures y in ref' && IndexOf(ref', y) == IndexOf(ref, y) < |ref|
    {
      var i := IndexOf(ref, y);
      assert ref'[i] == y;
    }
    assert IndexOf(ref', x) == |ref|;
    var ks' := ks + [x];
    forall i | 0 <= i < |ks'|
      ensures ks'[i] in ref'
    {
      if i < |ks| {
        assert ks'[i] == ks[i];
      }
    }
    forall i, j | 0 <= i < j < |ks'|
      ensures IndexOf(ref', ks'[i]) < IndexOf(ref', ks'[j])
    {
      assert ks'[i] == ks[i] && ks[i] in ref;
      if j < |ks| {
        assert ks'[j] == ks[j] && ks[j] in ref;
      }
    }
  }

  /** The elements of `xs` for which `keep` holds, in order. */
  function Filter(xs: seq<string>, keep: string -> bool): (r: seq<string>)
    ensures forall x :: x in r <==> x in xs && keep(x)
    decreases |xs|
  {
    if xs == [] then []
    else
      var n := |xs| - 1;
      assert xs == xs[..n] + [xs[n]];
      var prev := Filter(xs[..n], keep);
      if keep(xs[n]) then prev + [xs[n]] else prev
  }

  /** `xs` followed, in order, by the elements of `ys` that are not yet present. */
  function AddNew(xs: seq<string>, ys: seq<string>): (r: seq<string>)
    ensures forall x :: x in r <==> x in xs || x in ys
    ensures Distinct(xs) ==> Distinct(r)
    ensures |xs| <= |r| && r[..|xs|] == xs
    decreases |ys|
  {
    if ys == [] then xs
    else
      var n := |ys| - 1;
      assert ys == ys[..n] + [ys[n]];
      var acc := AddNew(xs, ys[..n]);
      if ys[n] in acc then acc else acc + [ys[n]]
  }

  /** Dropping repeats from a list without repeats changes nothing. */
  lemma {:induction false} AddNewDistinct(xs: seq<string>, ys: seq<string>)
    requires Distinct(xs + ys)
    ensures AddNew(xs, ys) == xs + ys
    decreases |ys|
  {
    if ys != [] {
      var n := |ys| - 1;
      var all, init := xs + ys, xs + ys[..n];
      assert all == init + [ys[n]];
      assert init == all[..|all| - 1];
      DistinctInit(all);
      AddNewDistinct(xs, ys[..n]);
      assert AddNew(xs, ys) == if ys[n] in init then init else init + [ys[n]];
    }
  }

  /** Without its last element, a list without repeats has none and does not hold that element. */
  lemma DistinctInit(xs: seq<string>)
    requires Distinct(xs) && xs != []
    ensures Distinct(xs[..|xs| - 1]) && xs[|xs| - 1] !in xs[..|xs| - 1]
  {
  }

  /**
   * Keeping the elements of `ref` chosen by `keep` and dropping repeats
   * lists them in the order of their first occurrence in `ref`.
   */
  lemma {:induction false} AddNewFilterOrdered(ref: seq<string>, keep: string -> bool)
    ensures OrderedBy(AddNew([], Filter(ref, keep)), ref)
    decreases |ref|
  {
    if ref != [] {
      var n := |ref| - 1;
      var pre, x := ref[..n], ref[n];
      assert ref == pre + [x];
      AddNewFilterOrdered(pre, keep);
      var d := AddNew([], Filter(pre, keep));
      assert Filter(ref, keep) == if keep(x) then Filter(pre, keep) + [x] else Filter(pre, keep);
      assert AddNew([], Filter(ref, keep)) == if keep(x) && x !in d then d + [x] else d;
      if x in pre {
        forall y | y in pre
          ensures IndexOf(ref, y) == IndexOf(pre, y)
        {
          var i := IndexOf(pre, y);
          assert ref[i] == y;
        }
      } else {
        OrderedBySnoc(d, pre, x);
      }
    }
  }

  /** The value of the first entry with key `k`. */
  function Get<V>(m: OrderedMap<V>, k: string): (r: Option<V>)
    ensures r.Some? <==> k in Keys(m)
    ensures r.Some? ==> (k, r.value) in m
  {
    if m == [] then None
    else
      assert Keys(m) == [m[0].0] + Keys(m[1..]);
      if m[0].0 == k then Some(m[0].1) else Get(m[1..], k)
  }

  /** The keys of a dictionary with `x` appended. */
  lemma KeysSnoc<V>(m: OrderedMap<V>, x: (string, V))
    ensures Keys(m + [x]) == Keys(m) + [x.0]
  {
    var ks := Keys(m + [x]);
    assert forall i :: 0 <= i < |m| ==> ks[i] == (m + [x])[i].0 == m[i].0;
  }

  /** The keys of a dictionary that starts with `x`. */
  lemma KeysCons<V>(x: (string, V), rest: OrderedMap<V>)
    ensures Keys([x] + rest) == [x.0] + Keys(rest)
  {
    assert ([x] + rest)[1..] == rest;
  }

  /** Looking up a key in a dictionary that starts with `x`. */
  lemma GetCons<V>(x: (string, V), rest: OrderedMap<V>, j: string)
    ensures Get([x] + rest, j) == if x.0 == j then Some(x.1) else Get(rest, j)
  {
    var m := [x] + rest;
    assert m[0] == x && m[1..] == rest;
  }

  /** `SortedDict.__setitem__`: replace the value in place, or append a new entry. */
  function Put<V>(m: OrderedMap<V>, k: string, v: V): (r: OrderedMap<V>)
    ensures (k, v) in r
    ensures forall x :: x in r ==> x == (k, v) || x in m
    ensures forall x :: x in m && x.0 != k ==> x in r
  {
    if m == [] then [(k, v)]
    else if m[0].0 == k then [(k, v)] + m[1..]
    else [m[0]] + Put(m[1..], k, v)
  }

  /** Assigning a present key keeps the key order; a new key goes last. */
  lemma {:induction false} PutKeys<V>(m: OrderedMap<V>, k: string, v: V)
    ensures Keys(Put(m, k, v)) == if k in Keys(m) then Keys(m) else Keys(m) + [k]
  {
    if m != [] {
      var x, tail := m[0], m[1..];
      assert m == [x] + tail;
      KeysCons(x, tail);
      if x.0 == k {
        assert Put(m, k, v) == [(k, v)] + tail;
        KeysCons((k, v), tail);
      } else {
        var rest := Put(tail, k, v);
        assert Put(m, k, v) == [x] + rest;
        PutKeys(tail, k, v);
        KeysCons(x, rest);
        assert (k in Keys(m)) == (k in Keys(tail));
        if k !in Keys(tail) {
          assert [x.0] + (Keys(tail) + [k]) == ([x.0] + Keys(tail)) + [k];
        }
      }
    }
  }

  /** After assigning `k`, looking `k` up gives the new value and every other key is as before. */
  lemma {:induction false} PutGet<V>(m: OrderedMap<V>, k: string, v: V, j: string)
    ensures Get(Put(m, k, v), j) == if j == k then Some(v) else Get(m, j)
  {
    if m == [] {
      GetCons((k, v), [], j);
    } else {
      assert m == [m[0]] + m[1..];
      GetCons(m[0], m[1..], j);
      if m[0].0 == k {
        GetCons((k, v), m[1..], j);
      } else {
        PutGet(m[1..], k, v, j);
        GetCons(m[0], Put(m[1..], k, v), j);
      }
    }
  }

  /** The value of the last pair with key `k`: the one a dictionary built from `ps` keeps. */
  function LastValue<V>(ps: seq<(string, V)>, k: string): (v: V)
    requires k in Keys(ps)
    ensures (k, v) in ps
    decreases |ps|
  {
    var n := |ps| - 1;
    if ps[n].0 == k then ps[n].1
    else
      assert ps == ps[..n] + [ps[n]];
      KeysSnoc(ps[..n], ps[n]);
      LastValue(ps[..n], k)
  }

  /** `SortedDict.update(ps)`: the pairs assigned one after the other. */
  function PutAll<V>(m: OrderedMap<V>, ps: seq<(string, V)>): (r: OrderedMap<V>)
    ensures forall x :: x in r ==> x in m || x in ps
    ensures forall x :: x in ps ==> x.0 in Keys(r)
    decreases |ps|
  {
    if ps == [] then m
    else
      var n := |ps| - 1;
      var prefix := PutAll(m, ps[..n]);
      assert ps == ps[..n] + [ps[n]];
      PutKeys(prefix, ps[n].0, ps[n].1);
      Put(prefix, ps[n].0, ps[n].1)
  }

  /** After `update`, the old keys keep their order and new keys follow in order of first appearance. */
  lemma {:induction false} PutAllKeys<V>(m: OrderedMap<V>, ps: seq<(string, V)>)
    ensures Keys(PutAll(m, ps)) == AddNew(Keys(m), Keys(ps))
    decreases |ps|
  {
    if ps != [] {
      var n := |ps| - 1;
      assert ps == ps[..n] + [ps[n]];
      KeysSnoc(ps[..n], ps[n]);
      assert Keys(ps)[..n] == Keys(ps[..n]);
      PutAllKeys(m, ps[..n]);
      PutKeys(PutAll(m, ps[..n]), ps[n].0, ps[n].1);
    }
  }

  /** After `update`, every key assigned holds the value of its last pair; the others are as before. */
  lemma {:induction false} PutAllGet<V>(m: OrderedMap<V>, ps: seq<(string, V)>, k: string)
    ensures Get(PutAll(m, ps), k) == if k in Keys(ps) then Some(LastValue(ps, k)) else Get(m, k)
    decreases |ps|
  {
    if ps != [] {
      var n := |ps| - 1;
      assert ps == ps[..n] + [ps[n]];
      KeysSnoc(ps[..n], ps[n]);
      PutAllGet(m, ps[..n], k);
      PutGet(PutAll(m, ps[..n]), ps[n].0, ps[n].1, k);
    }
  }

  /** `SortedDict(ps)`: a dictionary built from a list of pairs. */
  function FromPairs<V>(ps: seq<(string, V)>): (r: OrderedMap<V>)
    ensures Keys(r) == AddNew([], Keys(ps))
    ensures forall x :: x in r ==> x in ps
    ensures forall k :: k in Keys(ps) ==> Get(r, k) == Some(LastValue(ps, k))
  {
    PutAllKeys([], ps);
    assert forall k :: k in Keys(ps) ==> Get(PutAll([], ps), k) == Some(LastValue(ps, k)) by {
      forall k | k in Keys(ps) ensures Get(PutAll([], ps), k) == Some(LastValue(ps, k)) {
        PutAllGet([], ps, k);
      }
    }
    PutAll([], ps)
  }
}
