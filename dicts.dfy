/**
 * Python's `dict`, which remembers insertion order: a sequence of key/value
 * pairs in the order their keys were first inserted. Assigning to a present key
 * replaces its value where it stands; a new key goes to the end.
 */
module Dicts {
  import opened Wrappers
  import opened Seqs

  type Dict<K, V> = seq<(K, V)>

  function Keys<K, V>(d: Dict<K, V>): (ks: seq<K>)
    ensures |ks| == |d|
    ensures forall i :: 0 <= i < |d| ==> ks[i] == d[i].0
  {
    if d == [] then [] else [d[0].0] + Keys(d[1..])
  }

  function Values<K, V>(d: Dict<K, V>): (vs: seq<V>)
    ensures |vs| == |d|
    ensures forall i :: 0 <= i < |d| ==> vs[i] == d[i].1
  {
    if d == [] then [] else [d[0].1] + Values(d[1..])
  }

  /** The dictionary invariant: no key twice. */
  predicate Valid<K(==), V>(d: Dict<K, V>) {
    Distinct(Keys(d))
  }

  /** `d.get(k)`: the value stored under `k`, if any. */
  function Get<K(==), V>(d: Dict<K, V>, k: K): (r: Option<V>)
    ensures r.Some? <==> k in Keys(d)
  {
    if d == [] then None
    else if d[0].0 == k then Some(d[0].1)
    else
      Get(d[1..], k)
  }

  /** What `Get` returns was stored in the dictionary. */
  lemma {:induction false} GetStored<K, V>(d: Dict<K, V>, k: K)
    requires Get(d, k).Some?
    ensures (k, Get(d, k).value) in d
  {
    if d[0].0 != k {
      GetStored(d[1..], k);
    }
  }

  /** `d[k] = v`. */
  function Put<K(==,!new), V>(d: Dict<K, V>, k: K, v: V): (r: Dict<K, V>)
    ensures Keys(r) == if k in Keys(d) then Keys(d) else Keys(d) + [k]
    ensures Get(r, k) == Some(v)
    ensures forall k' :: k' != k ==> Get(r, k') == Get(d, k')
  {
    if d == [] then [(k, v)]
    else if d[0].0 == k then
      ConsReplaced(d, v);
      [(k, v)] + d[1..]
    else
      var rest := Put(d[1..], k, v);
      ConsPreserves(d, rest, k, v);
      [d[0]] + rest
  }

  /** A non-empty dictionary is its first pair before the rest, for keys and
      lookups alike. */
  lemma ConsParts<K, V>(d: Dict<K, V>)
    requires d != []
    ensures Keys(d) == [d[0].0] + Keys(d[1..])
    ensures forall k :: Get(d, k) == if d[0].0 == k then Some(d[0].1) else Get(d[1..], k)
  {
  }

  /** Replacing the value of the first pair. */
  lemma ConsReplaced<K, V>(d: Dict<K, V>, v: V)
    requires d != []
    ensures var r := [(d[0].0, v)] + d[1..];
      Keys(r) == Keys(d) && Get(r, d[0].0) == Some(v) &&
      forall k' :: k' != d[0].0 ==> Get(r, k') == Get(d, k')
  {
    ConsParts(d);
    ConsParts([(d[0].0, v)] + d[1..]);
    assert ([(d[0].0, v)] + d[1..])[1..] == d[1..];
  }

  /** Keeping the first pair in front of a rest that stored `v` under `k`. */
  lemma ConsPreserves<K, V>(d: Dict<K, V>, rest: Dict<K, V>, k: K, v: V)
    requires d != [] && d[0].0 != k
    requires Keys(rest) == if k in Keys(d[1..]) then Keys(d[1..]) else Keys(d[1..]) + [k]
    requires Get(rest, k) == Some(v)
    requires forall k' :: k' != k ==> Get(rest, k') == Get(d[1..], k')
    ensures var r := [d[0]] + rest;
      Keys(r) == (if k in Keys(d) then Keys(d) else Keys(d) + [k]) && Get(r, k) == Some(v) &&
      forall k' :: k' != k ==> Get(r, k') == Get(d, k')
  {
    var r := [d[0]] + rest;
    ConsParts(d);
    ConsParts(r);
    assert r[1..] == rest;
    if k !in Keys(d[1..]) {
      assert [d[0].0] + (Keys(d[1..]) + [k]) == ([d[0].0] + Keys(d[1..])) + [k];
    }
  }

  lemma {:induction false} PutValid<K(!new), V>(d: Dict<K, V>, k: K, v: V)
    requires Valid(d)
    ensures Valid(Put(d, k, v))
  {
    var r := Put(d, k, v);
    if k !in Keys(d) {
      assert Keys(r) == Keys(d) + [k];
    }
  }

  /** Storing under a new key appends the pair at the end. */
  lemma {:induction false} PutNew<K(!new), V>(d: Dict<K, V>, k: K, v: V)
    requires k !in Keys(d)
    ensures Put(d, k, v) == d + [(k, v)]
  {
    if d != [] {
      var rest := d[1..];
      assert Keys(d)[0] == d[0].0;
      assert k !in Keys(rest) by {
        forall i | 0 <= i < |rest|
          ensures Keys(rest)[i] != k
        {
          assert Keys(rest)[i] == Keys(d)[i + 1];
        }
      }
      PutSkip(d, k, v);
      PutNew(rest, k, v);
      AppendAssoc([d[0]], rest, [(k, v)]);
      assert [d[0]] + rest == d;
    }
  }

  lemma PutSkip<K(!new), V>(d: Dict<K, V>, k: K, v: V)
    requires d != [] && d[0].0 != k
    ensures Put(d, k, v) == [d[0]] + Put(d[1..], k, v)
  {
  }

  /** The pairs of `d` whose key satisfies `keep`, in order:
      `{k: v for k, v in d.items() if keep(k)}`. */
  function FilterKeys<K(==,!new), V>(d: Dict<K, V>, keep: K -> bool): (r: Dict<K, V>)
    ensures forall k :: Get(r, k) == if keep(k) then Get(d, k) else None
    ensures |r| <= |d|
    ensures Valid(d) ==> Valid(r)
    ensures forall i :: 0 <= i < |r| ==> r[i] in d
  {
    if d == [] then []
    else
      var rest := FilterKeys(d[1..], keep);
      var k0 := d[0].0;
      assert Keys(d) == [k0] + Keys(d[1..]);
      DistinctCons(k0, Keys(d[1..]));
      assert forall i :: 0 <= i < |rest| ==> rest[i] in d[1..];
      if keep(k0) then
        var r := [d[0]] + rest;
        assert Keys(r) == [k0] + Keys(rest);
        assert Valid(d) ==> Valid(r) by {
          if Valid(d) {
            assert Get(d[1..], k0).None?;
            assert k0 !in Keys(rest) by { assert Get(rest, k0) == Get(d[1..], k0); }
            DistinctCons(k0, Keys(rest));
          }
        }
        r
      else rest
  }

  /** The kept keys appear in the order they have in `d`. */
  lemma {:induction false} FilterKeysOrder<K(!new), V>(d: Dict<K, V>, keep: K -> bool)
    ensures Keys(FilterKeys(d, keep)) == Filter(Keys(d), keep)
    decreases |d|
  {
    if d != [] {
      assert Keys(d) == [d[0].0] + Keys(d[1..]);
      FilterKeysOrder(d[1..], keep);
      FilterCons(d[0].0, Keys(d[1..]), keep);
      if keep(d[0].0) {
        assert Keys([d[0]] + FilterKeys(d[1..], keep)) == [d[0].0] + Keys(FilterKeys(d[1..], keep));
      }
    }
  }

  /** `d.update(e)` with the pairs of `e` in order, and `dict(e)` when `d` is
      empty: every key of `e` ends up holding the value of its last pair. */
  function PutAll<K(==,!new), V>(d: Dict<K, V>, e: seq<(K, V)>): (r: Dict<K, V>)
    ensures |r| <= |d| + |e|
  {
    if e == [] then d
    else Put(PutAll(d, e[..|e| - 1]), e[|e| - 1].0, e[|e| - 1].1)
  }

  /** `[f(v) for v in d.values()]` over the first `n` entries, where `f` may
      raise: the first error propagates. */
  function MapValues<K, V, U>(d: Dict<K, V>, f: V -> Result<U>, n: nat): (r: Result<seq<U>>)
    requires n <= |d|
    ensures r.Ok? ==> |r.value| == n
    ensures r.Err? ==> exists i :: 0 <= i < n && f(d[i].1) == Err(r.error)
  {
    if n == 0 then Ok([])
    else
      match MapValues(d, f, n - 1)
      case Err(e) => Err(e)
      case Ok(prefix) =>
        match f(d[n - 1].1)
        case Err(e) => Err(e)
        case Ok(u) => Ok(prefix + [u])
  }

  /** The mapping succeeds iff `f` succeeds on every value, and then holds
      `f`'s results position by position. */
  lemma {:induction false} MapValuesSpec<K, V, U>(d: Dict<K, V>, f: V -> Result<U>, n: nat)
    requires n <= |d|
    ensures MapValues(d, f, n).Ok? <==> forall i :: 0 <= i < n ==> f(d[i].1).Ok?
    ensures MapValues(d, f, n).Ok? ==> forall i :: 0 <= i < n ==>
      MapValues(d, f, n).value[i] == f(d[i].1).value
  {
    if n > 0 {
      MapValuesSpec(d, f, n - 1);
      var p := MapValues(d, f, n - 1);
      var last := f(d[n - 1].1);
      if p.Ok? && last.Ok? {
        var ms := MapValues(d, f, n).value;
        assert ms == p.value + [last.value];
        forall i | 0 <= i < n
          ensures ms[i] == f(d[i].1).value
        {
          if i < n - 1 {
            assert ms[i] == p.value[i];
          }
        }
      }
    }
  }

  /** `d.update(e)`, pair by pair. */
  method Update<K(==,!new), V>(d: Dict<K, V>, e: seq<(K, V)>) returns (r: Dict<K, V>)
    ensures r == PutAll(d, e)
  {
    r := d;
    for i := 0 to |e|
      invariant r == PutAll(d, e[..i])
    {
      assert e[..i + 1][..i] == e[..i];
      r := Put(r, e[i].0, e[i].1);
    }
    assert e[..|e|] == e;
  }

  lemma KeysSnoc<K, V>(d: Dict<K, V>, x: (K, V))
    ensures Keys(d + [x]) == Keys(d) + [x.0]
  {
  }

  /** `PutAll` keeps the dictionary invariant; the keys of `d` keep their
      places and the new keys of `e` follow in their first-occurrence order. */
  lemma PutAllKeys<K(!new), V>(d: Dict<K, V>, e: seq<(K, V)>)
    requires Valid(d)
    ensures Valid(PutAll(d, e))
    ensures Keys(PutAll(d, e)) == Dedup(Keys(d) + Keys(e))
  {
    PutAllDedup(d, e);
  }

  lemma {:induction false} PutAllDedup<K(!new), V>(d: Dict<K, V>, e: seq<(K, V)>)
    requires Valid(d)
    ensures Keys(PutAll(d, e)) == Dedup(Keys(d) + Keys(e))
  {
    if e == [] {
      DedupDistinct(Keys(d));
      assert Keys(d) + Keys(e) == Keys(d);
    } else {
      var front := e[..|e| - 1];
      var last := e[|e| - 1];
      assert Keys(e) == Keys(front) + [last.0] by {
        assert e == front + [last];
        KeysSnoc(front, last);
      }
      PutAllDedup(d, front);
      var ks := Keys(d) + Keys(front);
      PutDedup(PutAll(d, front), ks, last.0, last.1);
      assert Keys(d) + Keys(e) == ks + [last.0];
    }
  }

  /** One more pair extends the key order like one more element extends `Dedup`. */
  lemma PutDedup<K(!new), V>(p: Dict<K, V>, ks: seq<K>, k: K, v: V)
    requires Keys(p) == Dedup(ks)
    ensures Keys(Put(p, k, v)) == Dedup(ks + [k])
  {
    DedupSnoc(ks, k);
  }

  /** A key that `e` does not mention keeps its value in `d`. */
  lemma {:induction false} PutAllUntouched<K(!new), V>(d: Dict<K, V>, e: seq<(K, V)>, k: K)
    requires forall i :: 0 <= i < |e| ==> e[i].0 != k
    ensures Get(PutAll(d, e), k) == Get(d, k)
  {
    if e != [] {
      var front := e[..|e| - 1];
      assert forall i :: 0 <= i < |front| ==> front[i] == e[i];
      PutAllUntouched(d, front, k);
    }
  }

  /** A key present after `d.update(e)` was in `d` or written by `e`. */
  lemma {:induction false} PutAllKeyFrom<K(!new), V>(d: Dict<K, V>, e: seq<(K, V)>, k: K)
    requires k in Keys(PutAll(d, e))
    ensures k in Keys(d) || exists j :: 0 <= j < |e| && e[j].0 == k
  {
    if e != [] {
      var front := e[..|e| - 1];
      if k != e[|e| - 1].0 {
        PutAllKeyFrom(d, front, k);
        if !(k in Keys(d)) {
          var j :| 0 <= j < |front| && front[j].0 == k;
          assert e[j] == front[j];
        }
      }
    }
  }

  /** Every key written by `d.update(e)` is present afterwards. */
  lemma {:induction false} PutAllHas<K(!new), V>(d: Dict<K, V>, e: seq<(K, V)>, i: nat)
    requires i < |e|
    ensures Get(PutAll(d, e), e[i].0).Some?
  {
    var front := e[..|e| - 1];
    if i < |e| - 1 {
      assert front[i] == e[i];
      PutAllHas(d, front, i);
    }
  }

  /** A key holds the value of its last pair in `e`. */
  lemma {:induction false} PutAllLast<K(!new), V>(d: Dict<K, V>, e: seq<(K, V)>, k: K, i: nat)
    requires i < |e| && e[i].0 == k
    requires forall j :: i < j < |e| ==> e[j].0 != k
    ensures Get(PutAll(d, e), k) == Some(e[i].1)
  {
    var front := e[..|e| - 1];
    if i < |e| - 1 {
      assert forall j :: 0 <= j < |front| ==> front[j] == e[j];
      PutAllLast(d, front, k, i);
    }
  }
}
