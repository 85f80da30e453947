/**
 * A Python counting dictionary, `d[k] = d.get(k, 0) + 1`, together with the insertion order of
 * its keys (a Python dict iterates its keys in the order they were first inserted), and the
 * ranking `sorted(d.items(), key=lambda x: x[1], reverse=True)`.
 */
module Tally {
  import opened Seqs
  import opened Sorting

  datatype Counter = Counter(keys: seq<string>, counts: map<string, nat>)

  /** A (key, count) pair of `d.items()`. */
  type Item = (string, nat)

  /** The sort key of the ranking: the count. */
  function CountKey(p: Item): real
  {
    p.1 as real
  }

  /** The keys are listed once each, and exactly the keys are counted. */
  ghost predicate Valid(c: Counter)
  {
    Distinct(c.keys) && forall k :: k in c.counts <==> k in c.keys
  }

  /** `d.get(k, 0)`. */
  function Get(c: Counter, k: string): nat
  {
    if k in c.counts then c.counts[k] else 0
  }

  /** `d[k] = d.get(k, 0) + 1`: a new key goes to the end of the key order. */
  function Bump(c: Counter, k: string): (r: Counter)
  {
    if k in c.counts then Counter(c.keys, c.counts[k := c.counts[k] + 1])
    else Counter(c.keys + [k], c.counts[k := 1])
  }

  /** The counter after counting every element of `s`, from left to right. */
  function TallyOf(s: seq<string>): (c: Counter)
  {
    if s == [] then Counter([], map[])
    else Bump(TallyOf(s[..|s| - 1]), s[|s| - 1])
  }

  /** `list(d.items())`: one (key, count) pair per key, in key order. */
  function Items(keys: seq<string>, counts: map<string, nat>): (r: seq<Item>)
    ensures |r| == |keys|
    ensures forall i :: 0 <= i < |r| ==> r[i] == (keys[i], if keys[i] in counts then counts[keys[i]] else 0)
  {
    if keys == [] then []
    else
      var k := keys[|keys| - 1];
      Items(keys[..|keys| - 1], counts) + [(k, if k in counts then counts[k] else 0)]
  }

  /** The ranking of a counter: its items by non-increasing count, ties in key order. */
  function Ranked(c: Counter): seq<Item>
  {
    SortDesc(Items(c.keys, c.counts), CountKey)
  }

  /** The total of the counts in a list of items. */
  function SumCounts(items: seq<Item>): nat
  {
    if items == [] then 0 else items[0].1 + SumCounts(items[1..])
  }

  /** No name is listed twice. */
  predicate NamesDistinct(items: seq<Item>)
  {
    forall i, j :: 0 <= i < j < |items| ==> items[i].0 != items[j].0
  }

  /** Counting one more element bumps its count (`d[k] = d.get(k, 0) + 1` in a loop). */
  lemma TallyAppend(s: seq<string>, x: string)
    ensures TallyOf(s + [x]) == Bump(TallyOf(s), x)
  {
    assert (s + [x])[..|s|] == s;
  }

  /** Counting keeps the counter well formed and every count is the number of occurrences. */
  lemma {:induction false} TallyOfCounts(s: seq<string>)
    ensures Valid(TallyOf(s))
    ensures forall k :: Get(TallyOf(s), k) == multiset(s)[k]
    ensures forall k :: k in TallyOf(s).counts <==> k in s
  {
    if s != [] {
      var init, last := s[..|s| - 1], s[|s| - 1];
      assert s == init + [last];
      TallyOfCounts(init);
      var c := TallyOf(init);
      assert forall k :: k in s <==> k in init || k == last;
      if last !in c.counts {
        assert last !in c.keys;
        forall i, j | 0 <= i < j < |c.keys + [last]| ensures (c.keys + [last])[i] != (c.keys + [last])[j] {
          if j == |c.keys| {
            assert (c.keys + [last])[i] == c.keys[i];
          }
        }
      }
    }
  }

  lemma {:induction false} SumCountsAppend(a: seq<Item>, b: seq<Item>)
    ensures SumCounts(a + b) == SumCounts(a) + SumCounts(b)
  {
    if a == [] {
      assert a + b == b;
    } else {
      assert (a + b)[1..] == a[1..] + b;
      SumCountsAppend(a[1..], b);
    }
  }

  /** Items from counts that differ only at a listed key `k` differ only at that key's pair. */
  lemma {:induction false} ItemsBumpSum(keys: seq<string>, counts: map<string, nat>, k: string)
    requires Distinct(keys) && k in keys && k in counts
    ensures SumCounts(Items(keys, counts[k := counts[k] + 1])) == SumCounts(Items(keys, counts)) + 1
  {
    var init, last := keys[..|keys| - 1], keys[|keys| - 1];
    var counts' := counts[k := counts[k] + 1];
    assert Distinct(init);
    SumCountsAppend(Items(init, counts'), [(last, if last in counts' then counts'[last] else 0)]);
    SumCountsAppend(Items(init, counts), [(last, if last in counts then counts[last] else 0)]);
    if last == k {
      assert k !in init;
      ItemsIgnoresOthers(init, counts, counts');
    } else {
      assert keys == init + [last];
      assert k in init;
      ItemsBumpSum(init, counts, k);
    }
  }

  /** Items depend only on the counts of the listed keys. */
  lemma {:induction false} ItemsIgnoresOthers(keys: seq<string>, counts: map<string, nat>, counts': map<string, nat>)
    requires forall k :: k in keys ==> (k in counts <==> k in counts') && (k in counts ==> counts[k] == counts'[k])
    ensures Items(keys, counts) == Items(keys, counts')
  {
    if keys != [] {
      var init := keys[..|keys| - 1];
      assert forall k :: k in init ==> k in keys;
      ItemsIgnoresOthers(init, counts, counts');
    }
  }

  /** Appending a new key with count one adds one to the total. */
  lemma {:induction false} ItemsNewKeySum(keys: seq<string>, counts: map<string, nat>, k: string)
    requires k !in keys
    ensures SumCounts(Items(keys + [k], counts[k := 1])) == SumCounts(Items(keys, counts)) + 1
  {
    var keys' := keys + [k];
    assert keys'[..|keys'| - 1] == keys;
    ItemsIgnoresOthers(keys, counts, counts[k := 1]);
    SumCountsAppend(Items(keys, counts[k := 1]), [(k, 1)]);
  }

  /** Counting one more element adds one to the total of the counts. */
  lemma BumpSum(c: Counter, k: string)
    requires Valid(c)
    ensures SumCounts(Items(Bump(c, k).keys, Bump(c, k).counts)) == SumCounts(Items(c.keys, c.counts)) + 1
  {
    if k in c.counts {
      ItemsBumpSum(c.keys, c.counts, k);
    } else {
      ItemsNewKeySum(c.keys, c.counts, k);
    }
  }

  /** The counts of the items of a tally add up to the number of elements counted. */
  lemma {:induction false} TallySum(s: seq<string>)
    ensures SumCounts(Items(TallyOf(s).keys, TallyOf(s).counts)) == |s|
  {
    if s != [] {
      var init := s[..|s| - 1];
      TallySum(init);
      TallyOfCounts(init);
      BumpSum(TallyOf(init), s[|s| - 1]);
    }
  }

  lemma {:induction false} SumCountsInsert(x: Item, s: seq<Item>, key: Item -> real)
    ensures SumCounts(Insert(x, s, key)) == x.1 + SumCounts(s)
  {
    if s != [] && key(s[0]) > key(x) {
      SumCountsInsert(x, s[1..], key);
    }
  }

  lemma {:induction false} SumCountsSort(s: seq<Item>, key: Item -> real)
    ensures SumCounts(SortDesc(s, key)) == SumCounts(s)
  {
    if s != [] {
      SumCountsSort(s[1..], key);
      SumCountsInsert(s[0], SortDesc(s[1..], key), key);
    }
  }

  /** Permuting items keeps names distinct. */
  lemma NamesDistinctPermutation(a: seq<Item>, b: seq<Item>)
    requires multiset(a) == multiset(b) && NamesDistinct(a)
    ensures NamesDistinct(b)
  {
    assert Distinct(a);
    DistinctSub(a, b);
    forall i, j | 0 <= i < j < |b| ensures b[i].0 != b[j].0 {
      assert b[i] in multiset(a) && b[j] in multiset(a);
      var p :| 0 <= p < |a| && a[p] == b[i];
      var q :| 0 <= q < |a| && a[q] == b[j];
    }
  }

  /** The ranking holds exactly the items of the counter. */
  lemma RankedMembers(c: Counter)
    ensures forall x :: x in Ranked(c) <==> x in Items(c.keys, c.counts)
  {
    var items := Items(c.keys, c.counts);
    assert multiset(Ranked(c)) == multiset(items);
    forall x ensures x in Ranked(c) <==> x in items {
      assert x in Ranked(c) <==> x in multiset(Ranked(c));
      assert x in items <==> x in multiset(items);
    }
  }

  /** Every ranked pair is a key of the counter with its count. */
  lemma RankedPairs(c: Counter)
    requires Valid(c)
    ensures forall i :: 0 <= i < |Ranked(c)| ==> Ranked(c)[i].0 in c.keys && Ranked(c)[i].1 == Get(c, Ranked(c)[i].0)
  {
    var items := Items(c.keys, c.counts);
    var r := Ranked(c);
    RankedMembers(c);
    forall i | 0 <= i < |r| ensures r[i].0 in c.keys && r[i].1 == Get(c, r[i].0) {
      assert r[i] in items;
      var p :| 0 <= p < |items| && items[p] == r[i];
    }
  }

  /** Every ranked pair is a name of `s` with its number of occurrences. */
  lemma RankedCounts(s: seq<string>)
    ensures var r := Ranked(TallyOf(s));
      forall i :: 0 <= i < |r| ==> r[i].0 in s && r[i].1 == multiset(s)[r[i].0]
  {
    TallyOfCounts(s);
    RankedPairs(TallyOf(s));
  }

  /** Every name of `s` is ranked. */
  lemma RankedCovers(s: seq<string>)
    ensures forall i :: 0 <= i < |s| ==> exists j :: 0 <= j < |Ranked(TallyOf(s))| && Ranked(TallyOf(s))[j].0 == s[i]
  {
    var c := TallyOf(s);
    var items := Items(c.keys, c.counts);
    var r := Ranked(c);
    TallyOfCounts(s);
    RankedMembers(c);
    forall i | 0 <= i < |s| ensures exists j :: 0 <= j < |r| && r[j].0 == s[i] {
      assert s[i] in c.counts;
      var p :| 0 <= p < |c.keys| && c.keys[p] == s[i];
      assert items[p] in r;
      var j :| 0 <= j < |r| && r[j] == items[p];
      assert r[j].0 == s[i];
    }
    assert r == Ranked(TallyOf(s));
    assert forall i :: 0 <= i < |s| ==> exists j :: 0 <= j < |r| && r[j].0 == s[i];
  }

  /** The ranking lists every name once, in order of count, and its counts total `|s|`. */
  lemma RankedShape(s: seq<string>)
    ensures var r := Ranked(TallyOf(s));
      && NamesDistinct(r)
      && SortedDesc(r, CountKey)
      && (forall k :: WithKey(r, CountKey, k) == WithKey(Items(TallyOf(s).keys, TallyOf(s).counts), CountKey, k))
      && SumCounts(r) == |s|
  {
    var c := TallyOf(s);
    var items := Items(c.keys, c.counts);
    TallyOfCounts(s);
    TallySum(s);
    SortDescCorrect(items, CountKey);
    SumCountsSort(items, CountKey);
    NamesDistinctPermutation(items, Ranked(c));
  }

  /**
   * The ranking of the tally of `s`: every name of `s` once, with its number of occurrences,
   * counts non-increasing, ties in order of first occurrence, counts adding up to `|s|`.
   */
  lemma RankedTally(s: seq<string>)
    ensures var r := Ranked(TallyOf(s));
      && (forall i :: 0 <= i < |r| ==> r[i].0 in s && r[i].1 == multiset(s)[r[i].0])
      && (forall i :: 0 <= i < |s| ==> exists j :: 0 <= j < |r| && r[j].0 == s[i])
      && NamesDistinct(r)
      && SortedDesc(r, CountKey)
      && SumCounts(r) == |s|
  {
    RankedCounts(s);
    RankedCovers(s);
    RankedShape(s);
  }
}
