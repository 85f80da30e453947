/** Generic facts about sequences used by several modules: filtering, distinctness, flattening. */
module Seqs {

  /** No element occurs twice. */
  predicate Distinct<T(==)>(s: seq<T>)
  {
    forall i, j :: 0 <= i < j < |s| ==> s[i] != s[j]
  }

  /** The elements of `s` that satisfy `p`, in their original order (a Python list comprehension with an `if`). */
  function Filter<T>(s: seq<T>, p: T -> bool): (r: seq<T>)
    ensures |r| <= |s|
    ensures forall i :: 0 <= i < |r| ==> r[i] in s && p(r[i])
    ensures forall i :: 0 <= i < |s| && p(s[i]) ==> s[i] in r
    ensures multiset(r) <= multiset(s)
  {
    if s == [] then []
    else
      var init, last := s[..|s| - 1], s[|s| - 1];
      assert s == init + [last];
      Filter(init, p) + (if p(last) then [last] else [])
  }

  /** Filtering keeps exactly the values of `s` that satisfy `p`. */
  lemma FilterSame<T>(s: seq<T>, p: T -> bool)
    ensures forall x :: x in Filter(s, p) <==> x in s && p(x)
  {
    forall x | x in s && p(x) ensures x in Filter(s, p) {
      var i :| 0 <= i < |s| && s[i] == x;
    }
  }

  /** Filtering distributes over concatenation. */
  lemma {:induction false} FilterConcat<T>(a: seq<T>, b: seq<T>, p: T -> bool)
    ensures Filter(a + b, p) == Filter(a, p) + Filter(b, p)
  {
    if b == [] {
      assert a + b == a;
    } else {
      var init, last := b[..|b| - 1], b[|b| - 1];
      var tail := if p(last) then [last] else [];
      assert (a + b)[..|a + b| - 1] == a + init;
      assert (a + b)[|a + b| - 1] == last;
      FilterConcat(a, init, p);
      assert Filter(a + b, p) == Filter(a + init, p) + tail;
      assert Filter(b, p) == Filter(init, p) + tail;
    }
  }

  /** Concatenation of a sequence of sequences (`sum(batches, [])`). */
  function Flatten<T>(ss: seq<seq<T>>): (r: seq<T>)
  {
    if ss == [] then [] else ss[0] + Flatten(ss[1..])
  }

  /** The number of elements of `s` that satisfy `p` (`len([x for x in s if p(x)])`). */
  function CountWhere<T>(s: seq<T>, p: T -> bool): (n: nat)
    ensures n <= |s|
    ensures n == |Filter(s, p)|
  {
    if s == [] then 0
    else
      var init, last := s[..|s| - 1], s[|s| - 1];
      CountWhere(init, p) + (if p(last) then 1 else 0)
  }

  /** No element satisfies `p`, so none is counted. */
  lemma {:induction false} CountNone<T>(s: seq<T>, p: T -> bool)
    requires forall i :: 0 <= i < |s| ==> !p(s[i])
    ensures CountWhere(s, p) == 0 && Filter(s, p) == []
  {
    if s != [] {
      CountNone(s[..|s| - 1], p);
    }
  }

  /** An element that occurs at two different positions occurs at least twice. */
  lemma {:induction false} TwoPositions<T>(s: seq<T>, i: nat, j: nat)
    requires i < j < |s| && s[i] == s[j]
    ensures multiset(s)[s[i]] >= 2
  {
    assert s == s[..j] + s[j..];
    assert s[i] in s[..j];
    assert s[j] in s[j..];
  }

  /** A sequence without duplicates holds each value at most once. */
  lemma {:induction false} DistinctAtMostOnce<T>(s: seq<T>, x: T)
    requires Distinct(s)
    ensures multiset(s)[x] <= 1
  {
    if s != [] {
      assert s == [s[0]] + s[1..];
      assert Distinct(s[1..]);
      DistinctAtMostOnce(s[1..], x);
      if x == s[0] {
        assert x !in s[1..];
      }
    }
  }

  /** A sub-multiset of a sequence without duplicates (a filtered or permuted copy, say) has no duplicates. */
  lemma DistinctSub<T>(a: seq<T>, b: seq<T>)
    requires multiset(b) <= multiset(a) && Distinct(a)
    ensures Distinct(b)
  {
    forall i, j | 0 <= i < j < |b|
      ensures b[i] != b[j]
    {
      if b[i] == b[j] {
        TwoPositions(b, i, j);
        DistinctAtMostOnce(a, b[i]);
      }
    }
  }

  /** `idx` lists strictly increasing positions of `b` holding the elements of `a`, in order. */
  ghost predicate Embeds<T>(a: seq<T>, b: seq<T>, idx: seq<int>)
  {
    && |idx| == |a|
    && (forall i :: 0 <= i < |idx| ==> 0 <= idx[i] < |b| && a[i] == b[idx[i]])
    && (forall i, j :: 0 <= i < j < |idx| ==> idx[i] < idx[j])
  }

  /** `a` is `b` with some elements left out, the rest in their original order. */
  ghost predicate Subsequence<T>(a: seq<T>, b: seq<T>)
  {
    exists idx :: Embeds(a, b, idx)
  }

  /** Filtering keeps a subsequence. */
  lemma {:induction false} FilterSubsequence<T>(s: seq<T>, p: T -> bool)
    ensures Subsequence(Filter(s, p), s)
  {
    if s == [] {
      assert Embeds(Filter(s, p), s, []);
    } else {
      var init, last := s[..|s| - 1], s[|s| - 1];
      FilterSubsequence(init, p);
      var idx :| Embeds(Filter(init, p), init, idx);
      assert forall k :: 0 <= k < |init| ==> init[k] == s[k];
      if p(last) {
        assert Embeds(Filter(s, p), s, idx + [|s| - 1]);
      } else {
        assert Embeds(Filter(s, p), s, idx);
      }
    }
  }

  /** The values of a Python dict in iteration order, given its keys in insertion order. */
  function Values<K, V>(m: map<K, V>, order: seq<K>): (r: seq<V>)
    ensures (forall k :: k in order ==> k in m) ==> |r| == |order| && forall i :: 0 <= i < |r| ==> r[i] == m[order[i]]
  {
    if order == [] then []
    else
      var init, last := order[..|order| - 1], order[|order| - 1];
      Values(m, init) + (if last in m then [m[last]] else [])
  }

  /** Python's `s[:limit]`: at most `limit` leading elements; a negative limit drops that many from the end. */
  function SliceTo<T>(s: seq<T>, limit: int): seq<T>
  {
    if limit >= 0 then s[..if limit < |s| then limit else |s|]
    else s[..if |s| + limit > 0 then |s| + limit else 0]
  }
}
