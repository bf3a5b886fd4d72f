/**
 * Sequence helpers for Python's list idioms: no element twice, `list(set(xs))`
 * (kept here in first-occurrence order) and list comprehensions with a filter.
 */
module Seqs {

  predicate Distinct<T(==)>(s: seq<T>) {
    forall i, j :: 0 <= i < j < |s| ==> s[i] != s[j]
  }

  /** A list with a head is without repetitions iff its tail is and does not
      hold the head. */
  lemma DistinctCons<T>(x: T, s: seq<T>)
    ensures Distinct([x] + s) <==> x !in s && Distinct(s)
  {
    var t := [x] + s;
    assert t[0] == x;
    assert forall i :: 0 <= i < |s| ==> t[i + 1] == s[i];
    if Distinct(t) {
      forall k | 0 <= k < |s|
        ensures s[k] != x
      {
        assert t[0] != t[k + 1];
      }
      forall i, j | 0 <= i < j < |s|
        ensures s[i] != s[j]
      {
        assert t[i + 1] != t[j + 1];
      }
    }
    if x !in s && Distinct(s) {
      forall i, j | 0 <= i < j < |t|
        ensures t[i] != t[j]
      {
        if i == 0 {
          assert t[j] == s[j - 1];
        } else {
          assert t[i] == s[i - 1] && t[j] == s[j - 1];
        }
      }
    }
  }

  /** A prefix of a prefix is a prefix, element by element. */
  lemma PrefixOfPrefix<T>(a: seq<T>, b: seq<T>, c: seq<T>)
    requires |c| <= |b| <= |a| && a[..|b|] == b && b[..|c|] == c
    ensures a[..|c|] == c && forall i :: 0 <= i < |c| ==> a[i] == c[i]
  {
    assert a[..|c|] == a[..|b|][..|c|];
    forall i | 0 <= i < |c| ensures a[i] == c[i] {
      assert a[..|c|][i] == a[i];
    }
  }

  /** The three parts of a concatenation of three sequences. */
  lemma Concat3<T>(a: seq<T>, b: seq<T>, c: seq<T>)
    ensures var s := a + b + c;
      |s| == |a| + |b| + |c| && s[..|a|] == a && s[|a|..|s| - |c|] == b && s[|s| - |c|..] == c
  {
    var s := a + b + c;
    assert s[..|a|] == a;
    assert s[|a|..|s| - |c|] == b;
    assert s[|s| - |c|..] == c;
  }

  /** A prefix one element longer. */
  lemma PrefixSnoc<T>(s: seq<T>, i: nat)
    requires i < |s|
    ensures s[..i + 1] == s[..i] + [s[i]]
  {
    assert s[..i + 1] == s[..i] + [s[i]];
  }

  lemma AppendAssoc<T>(a: seq<T>, b: seq<T>, c: seq<T>)
    ensures a + (b + c) == (a + b) + c
  {
  }

  /** The elements of `s`, each once, in the order of their first occurrence. */
  function Dedup<T(==,!new)>(s: seq<T>): (r: seq<T>)
    ensures forall x :: x in r <==> x in s
    ensures Distinct(r)
    ensures |r| <= |s|
  {
    if s == [] then []
    else
      var p := Dedup(s[..|s| - 1]);
      var x := s[|s| - 1];
      assert forall y :: y in s <==> y in s[..|s| - 1] || y == x by {
        assert s == s[..|s| - 1] + [x];
      }
      if x in p then p else p + [x]
  }

  lemma DedupSnoc<T(!new)>(s: seq<T>, x: T)
    ensures Dedup(s + [x]) == if x in s then Dedup(s) else Dedup(s) + [x]
  {
    assert (s + [x])[..|s|] == s;
  }

  /** Elements already present add nothing: `Dedup(a + b) == Dedup(a)` when
      every element of `b` is in `a`. */
  lemma {:induction false} DedupAbsorb<T(!new)>(a: seq<T>, b: seq<T>)
    requires forall x :: x in b ==> x in a
    ensures Dedup(a + b) == Dedup(a)
  {
    if b != [] {
      var front := b[..|b| - 1];
      var x := b[|b| - 1];
      assert forall y :: y in front ==> y in b;
      DedupAbsorb(a, front);
      assert a + b == (a + front) + [x];
      assert x in a + front;
      DedupSnoc(a + front, x);
    } else {
      assert a + b == a;
    }
  }

  /** A list without repetitions is its own `Dedup`. */
  lemma {:induction false} DedupDistinct<T(!new)>(s: seq<T>)
    requires Distinct(s)
    ensures Dedup(s) == s
  {
    if s != [] {
      var front := s[..|s| - 1];
      DedupDistinct(front);
      assert s[|s| - 1] !in front;
      assert front + [s[|s| - 1]] == s;
    }
  }

  /** `[x for x in s if keep(x)]`. */
  function Filter<T(!new)>(s: seq<T>, keep: T -> bool): (r: seq<T>)
    ensures forall x :: x in r <==> x in s && keep(x)
    ensures |r| <= |s|
    ensures forall i :: 0 <= i < |r| ==> keep(r[i])
  {
    if s == [] then []
    else
      var rest := Filter(s[..|s| - 1], keep);
      var x := s[|s| - 1];
      assert forall y :: y in s <==> y in s[..|s| - 1] || y == x by {
        assert s == s[..|s| - 1] + [x];
      }
      if keep(x) then rest + [x] else rest
  }

  /** Filtering keeps the order: the head comes first when it is kept. */
  lemma {:induction false} FilterCons<T(!new)>(x: T, s: seq<T>, keep: T -> bool)
    ensures Filter([x] + s, keep) == (if keep(x) then [x] else []) + Filter(s, keep)
    decreases |s|
  {
    var t := [x] + s;
    if s == [] {
      assert t[..|t| - 1] == [];
    } else {
      var front := s[..|s| - 1];
      assert t[..|t| - 1] == [x] + front;
      FilterCons(x, front, keep);
    }
  }
}
