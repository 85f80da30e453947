/**
 * Python's `sorted(xs, key=k, reverse=True)`: a stable sort into non-increasing key order.
 * Python keeps equal keys in their original order also when `reverse=True`, so the model is an
 * insertion sort that places each element before the first element whose key is not larger.
 * An ascending stable sort is the descending one on the negated key.
 */
module Sorting {

  /** Keys never increase from left to right. */
  ghost predicate SortedDesc<T>(s: seq<T>, key: T -> real)
  {
    forall i, j :: 0 <= i < j < |s| ==> key(s[i]) >= key(s[j])
  }

  /** The elements of `s` whose key is `k`, in order; a sort is stable when it keeps these sequences. */
  function WithKey<T>(s: seq<T>, key: T -> real, k: real): seq<T>
  {
    if s == [] then [] else (if key(s[0]) == k then [s[0]] else []) + WithKey(s[1..], key, k)
  }

  /** Places `x` in front of the first element of `s` whose key is at most `key(x)`. */
  function Insert<T>(x: T, s: seq<T>, key: T -> real): (r: seq<T>)
    ensures multiset(r) == multiset(s) + multiset{x}
  {
    if s == [] then [x]
    else if key(s[0]) <= key(x) then [x] + s
    else
      assert s == [s[0]] + s[1..];
      [s[0]] + Insert(x, s[1..], key)
  }

  /** The stable descending sort. */
  function SortDesc<T>(s: seq<T>, key: T -> real): (r: seq<T>)
    ensures multiset(r) == multiset(s)
    ensures |r| == |s|
  {
    if s == [] then []
    else
      assert s == [s[0]] + s[1..];
      Insert(s[0], SortDesc(s[1..], key), key)
  }

  lemma {:induction false} InsertSorted<T>(x: T, s: seq<T>, key: T -> real)
    requires SortedDesc(s, key)
    ensures SortedDesc(Insert(x, s, key), key)
  {
    if s != [] && key(s[0]) > key(x) {
      var t := s[1..];
      InsertSorted(x, t, key);
      var r := Insert(x, t, key);
      forall y | y in r
        ensures key(y) <= key(s[0])
      {
        assert y in multiset(r);
        assert y == x || y in multiset(t);
      }
    }
  }

  lemma WithKeyCons<T>(y: T, t: seq<T>, key: T -> real, k: real)
    ensures WithKey([y] + t, key, k) == (if key(y) == k then [y] else []) + WithKey(t, key, k)
  {
    assert ([y] + t)[1..] == t;
  }

  lemma {:induction false} InsertWithKey<T>(x: T, s: seq<T>, key: T -> real, k: real)
    ensures WithKey(Insert(x, s, key), key, k) == (if key(x) == k then [x] else []) + WithKey(s, key, k)
  {
    if s == [] {
      WithKeyCons(x, [], key, k);
      assert [x] + [] == [x];
    } else if key(s[0]) <= key(x) {
      WithKeyCons(x, s, key, k);
    } else {
      InsertWithKey(x, s[1..], key, k);
      InsertPast(x, s, key);
      WithKeyPast(s[0], x, key, k, Insert(x, s[1..], key), WithKey(s[1..], key, k));
    }
  }

  lemma InsertPast<T>(x: T, s: seq<T>, key: T -> real)
    requires s != [] && key(s[0]) > key(x)
    ensures Insert(x, s, key) == [s[0]] + Insert(x, s[1..], key)
  {
  }

  /** The step of `InsertWithKey` where `x` goes past the head `y`, over any rest `r`. */
  lemma WithKeyPast<T>(y: T, x: T, key: T -> real, k: real, r: seq<T>, w: seq<T>)
    requires key(y) > key(x)
    requires WithKey(r, key, k) == (if key(x) == k then [x] else []) + w
    ensures WithKey([y] + r, key, k) == (if key(x) == k then [x] else []) + ((if key(y) == k then [y] else []) + w)
  {
    WithKeyCons(y, r, key, k);
  }

  /** `SortDesc` yields a permutation of its input, in non-increasing key order, keeping equal keys in input order. */
  lemma {:induction false} SortDescCorrect<T>(s: seq<T>, key: T -> real)
    ensures multiset(SortDesc(s, key)) == multiset(s)
    ensures SortedDesc(SortDesc(s, key), key)
    ensures forall k :: WithKey(SortDesc(s, key), key, k) == WithKey(s, key, k)
  {
    if s != [] {
      SortDescCorrect(s[1..], key);
      InsertSorted(s[0], SortDesc(s[1..], key), key);
      forall k ensures WithKey(SortDesc(s, key), key, k) == WithKey(s, key, k) {
        InsertWithKey(s[0], SortDesc(s[1..], key), key, k);
      }
    }
  }

  /** Sorting keeps exactly the members of its input. */
  lemma SortDescMembers<T>(s: seq<T>, key: T -> real)
    ensures forall i :: 0 <= i < |s| ==> s[i] in SortDesc(s, key)
    ensures forall i :: 0 <= i < |SortDesc(s, key)| ==> SortDesc(s, key)[i] in s
  {
    var r := SortDesc(s, key);
    forall i | 0 <= i < |s| ensures s[i] in r {
      assert s[i] in multiset(r);
    }
    forall i | 0 <= i < |r| ensures r[i] in s {
      assert r[i] in multiset(s);
    }
  }

  /** Sorting keeps exactly the values of its input. */
  lemma SortDescSame<T>(s: seq<T>, key: T -> real)
    ensures forall x :: x in SortDesc(s, key) <==> x in s
  {
    forall x ensures x in SortDesc(s, key) <==> x in s {
      assert x in SortDesc(s, key) <==> x in multiset(SortDesc(s, key));
      assert x in s <==> x in multiset(s);
    }
  }

  /** Two elements whose second has the larger key swap places. */
  lemma SortTwo<T>(a: T, b: T, key: T -> real)
    requires key(b) > key(a)
    ensures SortDesc([a, b], key) == [b, a]
  {
    assert [a, b][1..] == [b];
    assert SortDesc([b], key) == [b];
    assert Insert(a, [b], key) == [b] + Insert(a, [], key);
  }
}
