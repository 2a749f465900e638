/**
 * Sequence operations that the TypeScript sources use through the array library:
 * `filter`, `find`, `indexOf` and `[...new Set(xs)]`.
 */
module Seqs {
  import opened Wrappers

  /** No element occurs twice. */
  predicate NoDup<T(==)>(s: seq<T>) {
    forall i, j :: 0 <= i < j < |s| ==> s[i] != s[j]
  }

  /** `s.filter(p)`: the elements satisfying `p`, in their original order. */
  function Filter<T(!new)>(s: seq<T>, p: T -> bool): (r: seq<T>)
    ensures |r| <= |s|
    ensures forall x :: x in r <==> x in s && p(x)
  {
    if s == [] then [] else (if p(s[0]) then [s[0]] else []) + Filter(s[1..], p)
  }

  /** Filtering distributes over concatenation, so it keeps the input order. */
  lemma {:induction false} FilterAppend<T(!new)>(a: seq<T>, b: seq<T>, p: T -> bool)
    ensures Filter(a + b, p) == Filter(a, p) + Filter(b, p)
  {
    if a == [] {
      assert a + b == b;
    } else {
      assert (a + b)[1..] == a[1..] + b;
      FilterAppend(a[1..], b, p);
    }
  }

  /** Filtering a sequence with a given first element. */
  lemma FilterCons<T(!new)>(x: T, s: seq<T>, p: T -> bool)
    ensures Filter([x] + s, p) == (if p(x) then [x] else []) + Filter(s, p)
  {
    assert ([x] + s)[1..] == s;
  }

  lemma AppendAssoc<T>(a: seq<T>, b: seq<T>, c: seq<T>)
    ensures a + (b + c) == (a + b) + c
  {
  }

  lemma AppendCancelLeft<T>(p: seq<T>, x: seq<T>, y: seq<T>)
    requires p + x == p + y
    ensures x == y
  {
    assert x == (p + x)[|p|..];
    assert y == (p + y)[|p|..];
  }

  /** Putting the same element in front of two sequences keeps a relation between their filterings. */
  lemma FilterConsAppend<T(!new)>(x: T, r: seq<T>, t: seq<T>, extra: seq<T>, p: T -> bool)
    requires Filter(r, p) == Filter(t, p) + extra
    ensures Filter([x] + r, p) == Filter([x] + t, p) + extra
  {
    var head: seq<T> := if p(x) then [x] else [];
    FilterCons(x, r, p);
    FilterCons(x, t, p);
    AppendAssoc(head, Filter(t, p), extra);
  }

  /** The index `s.findIndex(p)` would report, as an option. */
  function FindIndex<T>(s: seq<T>, p: T -> bool): (r: Option<nat>)
    ensures r.Some? ==> r.value < |s| && p(s[r.value])
    ensures r.Some? ==> forall k :: 0 <= k < r.value ==> !p(s[k])
    ensures r.None? <==> forall k :: 0 <= k < |s| ==> !p(s[k])
  {
    if s == [] then None
    else if p(s[0]) then Some(0)
    else match FindIndex(s[1..], p)
      case None => None
      case Some(k) => Some(k + 1)
  }

  /** `s.indexOf(x)` for an element that occurs. */
  function FirstIndex<T(==)>(s: seq<T>, x: T): (k: nat)
    requires x in s
    ensures k < |s| && s[k] == x
    ensures forall i :: 0 <= i < k ==> s[i] != x
  {
    if s[0] == x then 0 else 1 + FirstIndex(s[1..], x)
  }

  /** The first occurrence in a prefix is the first occurrence in the whole sequence. */
  lemma {:induction false} FirstIndexAppend<T>(a: seq<T>, b: seq<T>, x: T)
    requires x in a
    ensures FirstIndex(a + b, x) == FirstIndex(a, x)
  {
    if a[0] != x {
      assert (a + b)[1..] == a[1..] + b;
      FirstIndexAppend(a[1..], b, x);
    }
  }

  /**
   * `[...new Set(s)]`: each element once, where it first occurs. A JavaScript Set keeps insertion
   * order and a repeated insertion does nothing, which is what scanning from the left and appending
   * unseen elements does.
   */
  function Dedup<T(==,!new)>(s: seq<T>): (r: seq<T>)
    ensures NoDup(r)
    ensures |r| <= |s|
    ensures forall x :: x in r <==> x in s
    decreases |s|
  {
    if s == [] then []
    else
      var init, x := s[..|s| - 1], s[|s| - 1];
      assert s == init + [x];
      var d := Dedup(init);
      if x in d then d else d + [x]
  }

  /** The elements of `Dedup(s)` appear in the order of their first occurrence in `s`. */
  lemma {:induction false} DedupFirstOccurrenceOrder<T(!new)>(s: seq<T>, i: nat, j: nat)
    requires i < j < |Dedup(s)|
    ensures Dedup(s)[i] in s && Dedup(s)[j] in s
    ensures FirstIndex(s, Dedup(s)[i]) < FirstIndex(s, Dedup(s)[j])
  {
    var init, x := s[..|s| - 1], s[|s| - 1];
    assert s == init + [x];
    var d := Dedup(init);
    assert d[i] in init;
    FirstIndexAppend(init, [x], d[i]);
    if j < |d| {
      DedupFirstOccurrenceOrder(init, i, j);
      FirstIndexAppend(init, [x], d[j]);
    } else {
      assert x !in init;
      assert Dedup(s)[j] == x;
      assert FirstIndex(s, x) == |s| - 1;
    }
  }

  /** Deduplicating one more element appends it exactly when it is new. */
  lemma DedupSnoc<T(!new)>(s: seq<T>, x: T)
    ensures Dedup(s + [x]) == if x in Dedup(s) then Dedup(s) else Dedup(s) + [x]
  {
    assert (s + [x])[..|s|] == s;
  }

  /** A duplicate-free sequence is its own deduplication. */
  lemma {:induction false} DedupOfNoDup<T(!new)>(s: seq<T>)
    requires NoDup(s)
    ensures Dedup(s) == s
    decreases |s|
  {
    if s != [] {
      var init, x := s[..|s| - 1], s[|s| - 1];
      assert s == init + [x];
      DedupOfNoDup(init);
    }
  }

  /**
   * `s.filter(p).find(q)` finds what a single search of `s` for `pq`, the conjunction of `p` and
   * `q`, finds: nothing when no element satisfies both, otherwise the first element that does.
   */
  lemma {:induction false} FindIndexFilter<T(!new)>(s: seq<T>, p: T -> bool, q: T -> bool, pq: T -> bool)
    requires forall x :: pq(x) == (p(x) && q(x))
    ensures FindIndex(Filter(s, p), q).None? <==> FindIndex(s, pq).None?
    ensures FindIndex(Filter(s, p), q).Some? ==>
      Filter(s, p)[FindIndex(Filter(s, p), q).value] == s[FindIndex(s, pq).value]
  {
    if s != [] {
      var rest := Filter(s[1..], p);
      FindIndexFilter(s[1..], p, q, pq);
      FindIndexCons(s[0], s[1..], pq);
      assert [s[0]] + s[1..] == s;
      if p(s[0]) {
        FindIndexCons(s[0], rest, q);
        assert Filter(s, p) == [s[0]] + rest;
      } else {
        assert Filter(s, p) == rest;
      }
    }
  }

  /** Searching a sequence with a given first element. */
  lemma FindIndexCons<T>(x: T, r: seq<T>, q: T -> bool)
    ensures FindIndex([x] + r, q)
         == if q(x) then Some(0) else match FindIndex(r, q) case None => None case Some(k) => Some(k + 1)
  {
    assert ([x] + r)[1..] == r;
  }

  /** Filtering by `p` and then by `q` is filtering once by `pq`, their conjunction. */
  lemma {:induction false} FilterFilter<T(!new)>(s: seq<T>, p: T -> bool, q: T -> bool, pq: T -> bool)
    requires forall x :: pq(x) == (p(x) && q(x))
    ensures Filter(Filter(s, p), q) == Filter(s, pq)
  {
    if s != [] {
      var rest := Filter(s[1..], p);
      FilterFilter(s[1..], p, q, pq);
      if p(s[0]) {
        var f := [s[0]] + rest;
        assert Filter(s, p) == f;
        assert f[1..] == rest;
      } else {
        assert Filter(s, p) == rest;
      }
    }
  }
}
