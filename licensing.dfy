/** The licensing filter: results not owned by the focal group are licensing candidates. */
module Licensing {
  import opened Wrappers
  import opened Seqs

  /** A search result: its identifier and its `owners` field, which may be missing. */
  datatype Result = Result(id: string, owners: Option<seq<string>>)

  /** `focal_group in item.get("owners", [])`. */
  predicate OwnedBy(item: Result, focalGroup: string)
  {
    focalGroup in item.owners.GetOr([])
  }

  /** The filter condition of `flag_licensing_opportunities`. */
  function NotOwnedBy(focalGroup: string): Result -> bool
  {
    item => !OwnedBy(item, focalGroup)
  }

  /** `flag_licensing_opportunities`: the results the focal group does not own, in order. */
  method FlagLicensingOpportunities(results: seq<Result>, focalGroup: string) returns (flagged: seq<Result>)
    ensures flagged == Filter(results, NotOwnedBy(focalGroup))
  {
    flagged := [];
    for i := 0 to |results|
      invariant flagged == Filter(results[..i], NotOwnedBy(focalGroup))
    {
      assert results[..i + 1][..i] == results[..i];
      if focalGroup !in results[i].owners.GetOr([]) {
        flagged := flagged + [results[i]];
      }
    }
    assert results[..|results|] == results;
  }

  /**
   * The flagged results are a subsequence of the input, at most as long; each flagged result is
   * not owned by the focal group; an input result is flagged exactly when the focal group does not
   * own it, so every result without `owners` is flagged and every dropped result is owned.
   */
  lemma FlaggedSpec(results: seq<Result>, focalGroup: string)
    ensures var r := Filter(results, NotOwnedBy(focalGroup));
      && Subsequence(r, results) && |r| <= |results|
      && (forall i :: 0 <= i < |r| ==> !OwnedBy(r[i], focalGroup))
      && (forall i :: 0 <= i < |results| ==> (results[i] in r <==> !OwnedBy(results[i], focalGroup)))
      && (forall i :: 0 <= i < |results| && results[i].owners == None ==> results[i] in r)
  {
    FilterSubsequence(results, NotOwnedBy(focalGroup));
  }

  /** Flagging is idempotent: nothing flagged once is dropped the second time. */
  lemma {:induction false} FlagIdempotent(results: seq<Result>, focalGroup: string)
    ensures Filter(Filter(results, NotOwnedBy(focalGroup)), NotOwnedBy(focalGroup)) == Filter(results, NotOwnedBy(focalGroup))
  {
    if results != [] {
      var init, last := results[..|results| - 1], results[|results| - 1];
      FlagIdempotent(init, focalGroup);
      var p := NotOwnedBy(focalGroup);
      FilterConcat(Filter(init, p), if p(last) then [last] else [], p);
      assert Filter([last], p) == (if p(last) then [last] else []) by {
        assert [last][..0] == [];
      }
    }
  }
}
