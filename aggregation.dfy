/**
 * Result aggregation: ranking result dicts by a numeric field, and counting contributors across
 * results.
 */
module Aggregation {
  import opened Sorting
  import opened Tally

  /** A result dict, restricted to its numeric fields. */
  type Row = map<string, real>

  const DEFAULT_RANK_KEY := "similarity_score"

  /** `x.get(key, 0)`. */
  function Score(x: Row, key: string): real
  {
    if key in x then x[key] else 0.0
  }

  /** The sort key of `rank_results`. */
  function ScoreKey(key: string): Row -> real
  {
    x => Score(x, key)
  }

  /**
   * `rank_results`: the rows rearranged into non-increasing order of their `key` field, a missing
   * field counting as 0; rows with equal values keep their original relative order.
   */
  function RankResults(results: seq<Row>, key: string := DEFAULT_RANK_KEY): (r: seq<Row>)
    ensures multiset(r) == multiset(results)
    ensures forall i, j :: 0 <= i < j < |r| ==> Score(r[i], key) >= Score(r[j], key)
    ensures forall k :: WithKey(r, ScoreKey(key), k) == WithKey(results, ScoreKey(key), k)
  {
    SortDescCorrect(results, ScoreKey(key));
    SortDesc(results, ScoreKey(key))
  }

  /** A row that has a positive `key` is ranked ahead of every row lacking it. */
  lemma MissingRanksLast(results: seq<Row>, key: string, i: nat, j: nat)
    requires i < |results| && j < |results|
    requires var r := RankResults(results, key); key in r[i] && r[i][key] > 0.0 && key !in r[j]
    ensures i < j
  {
  }

  /** Every contributor entry of every result, result by result (`item.get("contributors", [])`). */
  function AllContributors(results: seq<seq<string>>): (r: seq<string>)
  {
    if results == [] then [] else AllContributors(results[..|results| - 1]) + results[|results| - 1]
  }

  /** The number of contributor entries across all results. */
  function TotalEntries(results: seq<seq<string>>): nat
  {
    if results == [] then 0 else TotalEntries(results[..|results| - 1]) + |results[|results| - 1]|
  }

  lemma {:induction false} AllContributorsLength(results: seq<seq<string>>)
    ensures |AllContributors(results)| == TotalEntries(results)
  {
    if results != [] {
      AllContributorsLength(results[..|results| - 1]);
    }
  }

  /** `extract_contributors`: one count per contributor, bumped per entry, ranked by count. */
  method ExtractContributors(results: seq<seq<string>>) returns (ranked: seq<Item>)
    ensures ranked == Ranked(TallyOf(AllContributors(results)))
  {
    var contributors := Counter([], map[]);
    for i := 0 to |results|
      invariant contributors == TallyOf(AllContributors(results[..i]))
    {
      var entries := results[i];
      ghost var before := AllContributors(results[..i]);
      assert before + entries[..0] == before;
      for k := 0 to |entries|
        invariant contributors == TallyOf(before + entries[..k])
      {
        TallyAppend(before + entries[..k], entries[k]);
        assert before + entries[..k + 1] == before + entries[..k] + [entries[k]];
        contributors := Bump(contributors, entries[k]);
      }
      assert entries[..|entries|] == entries;
      assert results[..i + 1][..i] == results[..i];
    }
    assert results[..|results|] == results;
    ranked := Ranked(contributors);
  }

  /**
   * Each contributor is listed once, with its exact number of entries; every contributor is
   * listed; counts never increase and add up to the number of entries.
   */
  lemma ContributorsSpec(results: seq<seq<string>>)
    ensures var names, r := AllContributors(results), Ranked(TallyOf(AllContributors(results)));
      && (forall i :: 0 <= i < |r| ==> r[i].0 in names && r[i].1 == multiset(names)[r[i].0])
      && (forall i :: 0 <= i < |names| ==> exists j :: 0 <= j < |r| && r[j].0 == names[i])
      && NamesDistinct(r) && SortedDesc(r, CountKey)
      && SumCounts(r) == TotalEntries(results)
  {
    RankedTally(AllContributors(results));
    AllContributorsLength(results);
  }
}
