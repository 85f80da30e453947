/**
 * The rule-based parts of the enhanced innovation analysis: the competitive landscape of the
 * similar patents and publications, the distribution of similarity scores, the empty case of
 * the similarity context, and the recommendation list (its rule-based entries and the
 * de-duplicating, length-filtering, capped clean-up step).
 */
module EnhancedAnalysis {
  import opened Wrappers
  import opened Seqs
  import opened Text

  /** A similar document as far as these rules read it: `score`, `year` and `index` may be absent. */
  datatype Document = Document(score: Option<real>, year: Option<int>, index: Option<string>)

  // ---------------------------------------------------------------------------------------------
  // analyze_competitive_landscape

  /** `p.get("score", 0) > 0.8`. */
  predicate HighlySimilar(d: Document)
  {
    d.score.GetOr(0.0) > 0.8
  }

  /** `p.get("year", 2000) >= 2020`. */
  predicate RecentPatent(d: Document)
  {
    d.year.GetOr(2000) >= 2020
  }

  datatype Landscape = Landscape(
    competitiveIntensity: string,
    intensityScore: nat,
    marketPosition: string,
    totalCompetingDocuments: nat,
    highSimilarityPatents: nat,
    recentPatentActivity: nat,
    patentToPublicationRatio: real,
    competitiveThreatLevel: string)

  const VERY_HIGH := "Very High"
  const HIGH := "High"
  const MEDIUM := "Medium"
  const LOW := "Low"

  const CROWDED := "Crowded - High Competition"
  const COMPETITIVE := "Competitive - Moderate Competition"
  const EMERGING := "Emerging - Some Competition"
  const OPEN := "Open - Low Competition"

  /** The intensity band of a document total, with its score. */
  function Intensity(total: nat): (string, nat)
  {
    if total > 100 then (VERY_HIGH, 9)
    else if total > 50 then (HIGH, 7)
    else if total > 20 then (MEDIUM, 5)
    else (LOW, 3)
  }

  /** The market position of a count of highly similar patents. */
  function Position(highSimilarity: nat): string
  {
    if highSimilarity > 10 then CROWDED
    else if highSimilarity > 5 then COMPETITIVE
    else if highSimilarity > 0 then EMERGING
    else OPEN
  }

  /** The threat level of a count of highly similar patents. */
  function ThreatLevel(highSimilarity: nat): string
  {
    if highSimilarity > 5 then HIGH else if highSimilarity > 2 then MEDIUM else LOW
  }

  /** `analyze_competitive_landscape`. */
  function CompetitiveLandscape(patents: seq<Document>, publications: seq<Document>): Landscape
  {
    var total := |patents| + |publications|;
    var high := CountWhere(patents, HighlySimilar);
    Landscape(
      Intensity(total).0, Intensity(total).1, Position(high), total, high,
      CountWhere(patents, RecentPatent),
      |patents| as real / (if |publications| > 1 then |publications| else 1) as real,
      ThreatLevel(high))
  }

  /**
   * The landscape's bands: intensity by the total of patents and publications (above 100, 50,
   * 20), position and threat by the number of patents scoring above 0.8 (above 10, 5, 0 and above
   * 5, 2), and activity by the number of patents dated 2020 or later.
   */
  lemma CompetitiveLandscapeSpec(patents: seq<Document>, publications: seq<Document>)
    ensures var r := CompetitiveLandscape(patents, publications);
      var total := |patents| + |publications|;
      && r.totalCompetingDocuments == total
      && (r.competitiveIntensity == VERY_HIGH <==> total > 100)
      && (r.competitiveIntensity == HIGH <==> 50 < total <= 100)
      && (r.competitiveIntensity == MEDIUM <==> 20 < total <= 50)
      && (r.competitiveIntensity == LOW <==> total <= 20)
      && r.intensityScore == (if total > 100 then 9 else if total > 50 then 7 else if total > 20 then 5 else 3)
      && r.highSimilarityPatents == |Filter(patents, HighlySimilar)| <= |patents|
      && (r.marketPosition == CROWDED <==> r.highSimilarityPatents > 10)
      && (r.marketPosition == COMPETITIVE <==> 5 < r.highSimilarityPatents <= 10)
      && (r.marketPosition == EMERGING <==> 0 < r.highSimilarityPatents <= 5)
      && (r.marketPosition == OPEN <==> r.highSimilarityPatents == 0)
      && (r.competitiveThreatLevel == HIGH <==> r.highSimilarityPatents > 5)
      && (r.competitiveThreatLevel == MEDIUM <==> 2 < r.highSimilarityPatents <= 5)
      && (r.competitiveThreatLevel == LOW <==> r.highSimilarityPatents <= 2)
      && r.recentPatentActivity == |Filter(patents, RecentPatent)| <= |patents|
  {
  }

  /** A patent without a year counts as dated 2000, so it is never recent activity. */
  lemma UndatedNotRecent(patents: seq<Document>)
    requires forall i :: 0 <= i < |patents| ==> patents[i].year == None
    ensures CompetitiveLandscape(patents, []).recentPatentActivity == 0
  {
    CountNone(patents, RecentPatent);
  }

  // ---------------------------------------------------------------------------------------------
  // analyze_similarity_scores

  /** `doc.get("score")` is truthy: present and not zero. */
  predicate Scored(d: Document)
  {
    d.score.Some? && d.score.value != 0.0
  }

  /** `[doc.get("score", 0) for doc in documents if doc.get("score")]`. */
  function Scores(docs: seq<Document>): (r: seq<real>)
    ensures |r| == |Filter(docs, Scored)|
    ensures forall i :: 0 <= i < |r| ==> r[i] != 0.0
  {
    if docs == [] then []
    else
      var init, last := docs[..|docs| - 1], docs[|docs| - 1];
      Scores(init) + (if Scored(last) then [last.score.value] else [])
  }

  predicate VeryHighScore(s: real) { s > 0.9 }
  predicate HighScore(s: real) { 0.8 < s <= 0.9 }
  predicate MediumScore(s: real) { 0.6 < s <= 0.8 }
  predicate LowScore(s: real) { s <= 0.6 }

  function Sum(s: seq<real>): real
  {
    if s == [] then 0.0 else Sum(s[..|s| - 1]) + s[|s| - 1]
  }

  function Max(s: seq<real>): (m: real)
    requires s != []
    ensures m in s && forall i :: 0 <= i < |s| ==> s[i] <= m
  {
    if |s| == 1 then s[0]
    else
      var m := Max(s[..|s| - 1]);
      assert forall i :: 0 <= i < |s| - 1 ==> s[..|s| - 1][i] == s[i];
      if s[|s| - 1] > m then s[|s| - 1] else m
  }

  function Min(s: seq<real>): (m: real)
    requires s != []
    ensures m in s && forall i :: 0 <= i < |s| ==> m <= s[i]
  {
    if |s| == 1 then s[0]
    else
      var m := Min(s[..|s| - 1]);
      assert forall i :: 0 <= i < |s| - 1 ==> s[..|s| - 1][i] == s[i];
      if s[|s| - 1] < m then s[|s| - 1] else m
  }

  datatype SimilarityAnalysis =
    | SimilarityError(error: string)
    | Distribution(averageSimilarity: real, maxSimilarity: real, minSimilarity: real,
                   veryHighSimilarity: nat, highSimilarity: nat, mediumSimilarity: nat, lowSimilarity: nat,
                   similarityTrend: string)

  const NO_DOCUMENTS := "No documents to analyze"
  const NO_SCORES := "No similarity scores found"

  /** `analyze_similarity_scores`; the average, maximum and minimum are exact (not rounded). */
  function AnalyzeSimilarityScores(docs: seq<Document>): SimilarityAnalysis
  {
    if docs == [] then SimilarityError(NO_DOCUMENTS)
    else
      var scores := Scores(docs);
      if scores == [] then SimilarityError(NO_SCORES)
      else
        var top := Max(scores);
        Distribution(
          Sum(scores) / |scores| as real, top, Min(scores),
          CountWhere(scores, VeryHighScore), CountWhere(scores, HighScore),
          CountWhere(scores, MediumScore), CountWhere(scores, LowScore),
          if top > 0.9 then "concerning" else if top > 0.8 then "competitive" else "favorable")
  }

  /** Every score falls in exactly one bucket, so the bucket counts add up to the number of scores. */
  lemma {:induction false} BucketsPartition(s: seq<real>)
    ensures CountWhere(s, VeryHighScore) + CountWhere(s, HighScore) + CountWhere(s, MediumScore)
          + CountWhere(s, LowScore) == |s|
  {
    if s != [] {
      BucketsPartition(s[..|s| - 1]);
    }
  }

  /** No documents and documents without a truthy score are the two errors. */
  lemma SimilarityErrors(docs: seq<Document>)
    ensures docs == [] ==> AnalyzeSimilarityScores(docs) == SimilarityError(NO_DOCUMENTS)
    ensures docs != [] && (forall i :: 0 <= i < |docs| ==> !Scored(docs[i]))
        ==> AnalyzeSimilarityScores(docs) == SimilarityError(NO_SCORES)
    ensures AnalyzeSimilarityScores(docs).SimilarityError? ==> docs == [] || Filter(docs, Scored) == []
  {
    if docs != [] && (forall i :: 0 <= i < |docs| ==> !Scored(docs[i])) {
      CountNone(docs, Scored);
    }
  }

  /** The statistics of a non-empty score list. */
  lemma DistributionOf(scores: seq<real>)
    requires scores != []
    ensures var top := Max(scores);
      && CountWhere(scores, VeryHighScore) + CountWhere(scores, HighScore) + CountWhere(scores, MediumScore)
         + CountWhere(scores, LowScore) == |scores|
      && (forall i :: 0 <= i < |scores| ==> Min(scores) <= scores[i] <= top)
      && Min(scores) in scores && top in scores
  {
    BucketsPartition(scores);
  }

  /**
   * With at least one truthy score, the four bucket counts add up to the number of scored
   * documents, the maximum and minimum are scores bounding every score, and the trend is
   * "concerning" above 0.9, "competitive" above 0.8 and "favorable" otherwise.
   */
  lemma SimilarityScoresSpec(docs: seq<Document>)
    ensures var r := AnalyzeSimilarityScores(docs);
      r.Distribution? ==>
        && r.veryHighSimilarity + r.highSimilarity + r.mediumSimilarity + r.lowSimilarity
           == |Filter(docs, Scored)| > 0
        && (forall i :: 0 <= i < |Scores(docs)| ==> r.minSimilarity <= Scores(docs)[i] <= r.maxSimilarity)
        && r.minSimilarity in Scores(docs) && r.maxSimilarity in Scores(docs)
        && (r.similarityTrend == "concerning" <==> r.maxSimilarity > 0.9)
        && (r.similarityTrend == "competitive" <==> 0.8 < r.maxSimilarity <= 0.9)
        && (r.similarityTrend == "favorable" <==> r.maxSimilarity <= 0.8)
  {
    var scores := Scores(docs);
    if docs != [] && scores != [] {
      DistributionOf(scores);
    }
  }

  // ---------------------------------------------------------------------------------------------
  // build_similarity_context

  const NO_SIMILAR_DOCUMENTS := "No similar documents found."

  /** How many documents the context lists at most. */
  const CONTEXT_LIMIT := 8

  /**
   * `build_similarity_context`: one entry per document among the first eight, numbered from 1,
   * joined by newlines; the entry text (title, type, similarity to three decimals, URL) is
   * produced by `entry`.
   */
  method BuildSimilarityContext(docs: seq<Document>, entry: (nat, Document) -> string) returns (context: string)
    ensures docs == [] ==> context == NO_SIMILAR_DOCUMENTS
    ensures docs != [] ==> context == Join("\n", Entries(docs, entry, if |docs| < 8 then |docs| else 8))
  {
    if docs == [] {
      return NO_SIMILAR_DOCUMENTS;
    }
    var n := if |docs| < CONTEXT_LIMIT then |docs| else CONTEXT_LIMIT;
    var parts: seq<string> := [];
    for i := 0 to n
      invariant parts == Entries(docs, entry, i)
    {
      parts := parts + [entry(i + 1, docs[i])];
    }
    context := Join("\n", parts);
  }

  /** The entries of the first `n` documents, numbered from 1. */
  function Entries(docs: seq<Document>, entry: (nat, Document) -> string, n: nat): (r: seq<string>)
    requires n <= |docs|
    ensures |r| == n && forall i :: 0 <= i < n ==> r[i] == entry(i + 1, docs[i])
  {
    if n == 0 then [] else Entries(docs, entry, n - 1) + [entry(n, docs[n - 1])]
  }

  // ---------------------------------------------------------------------------------------------
  // generate_smart_recommendations

  const TRL_LOW_RECOMMENDATIONS := [
    "Focus on proof-of-concept development and validation",
    "Seek research funding and academic partnerships",
    "Conduct detailed feasibility studies"]
  const TRL_MID_RECOMMENDATIONS := [
    "Develop working prototype and conduct pilot testing",
    "File provisional patent applications to secure IP",
    "Validate market demand through customer interviews"]
  const TRL_HIGH_RECOMMENDATIONS := [
    "Prepare for commercialization and scale-up",
    "Develop comprehensive go-to-market strategy",
    "Secure strategic partnerships for market entry"]

  /** The three TRL-based recommendations: TRL at most 3, at most 6, or above. */
  function TrlRecommendations(trlScore: real): seq<string>
  {
    if trlScore <= 3.0 then TRL_LOW_RECOMMENDATIONS
    else if trlScore <= 6.0 then TRL_MID_RECOMMENDATIONS
    else TRL_HIGH_RECOMMENDATIONS
  }

  function MarketRecommendation(marketPotential: real): string
  {
    if marketPotential > 7.0 then "High market potential - prioritize rapid development and funding"
    else if marketPotential > 4.0 then "Moderate market potential - validate business model thoroughly"
    else "Consider market pivot or niche focus for better positioning"
  }

  function PatentRecommendations(patentCount: nat): seq<string>
  {
    if patentCount > 50 then
      ["Crowded patent landscape - conduct detailed freedom-to-operate analysis",
       "Consider design-around strategies or licensing agreements"]
    else if patentCount > 20 then ["Active patent area - file strategic patents to build IP portfolio"]
    else ["Open patent landscape - opportunity for strong IP position"]
  }

  function SimilarityRecommendations(highSimilarityCount: nat): seq<string>
  {
    if highSimilarityCount > 5 then
      ["Multiple highly similar technologies found - differentiate clearly",
       "Consider collaboration or acquisition opportunities"]
    else []
  }

  /** `d.get("index") == "patents"`. */
  predicate IsPatent(d: Document)
  {
    d.index == Some("patents")
  }

  /**
   * The recommendations before clean-up: the TRL, market, patent-landscape and similarity rules
   * in that order, then at most three lines of generated text (`aiLines`; empty when no
   * generator is available).
   */
  function Candidates(trlScore: real, marketPotential: real, docs: seq<Document>, aiLines: seq<string>): seq<string>
  {
    TrlRecommendations(trlScore)
    + [MarketRecommendation(marketPotential)]
    + PatentRecommendations(CountWhere(docs, IsPatent))
    + SimilarityRecommendations(CountWhere(docs, HighlySimilar))
    + aiLines[..if |aiLines| < 3 then |aiLines| else 3]
  }

  /** The first occurrence of each entry longer than 10 characters, in order. */
  function Unique(recs: seq<string>): seq<string>
  {
    if recs == [] then []
    else
      var u := Unique(recs[..|recs| - 1]);
      var last := recs[|recs| - 1];
      if last !in u && |last| > 10 then u + [last] else u
  }

  /** The position of the first occurrence of `x` in `s`. */
  function FirstIndex(s: seq<string>, x: string): (i: nat)
    requires x in s
    ensures i < |s| && s[i] == x && x !in s[..i]
  {
    if s[0] == x then 0 else FirstIndex(s[1..], x) + 1
  }

  const RECOMMENDATION_LIMIT := 12

  /** The clean-up loop: keep the first occurrence of each entry longer than 10 characters. */
  method Deduplicate(recs: seq<string>) returns (unique: seq<string>)
    ensures unique == Unique(recs)
  {
    unique := [];
    for i := 0 to |recs|
      invariant unique == Unique(recs[..i])
    {
      assert recs[..i + 1][..i] == recs[..i];
      if recs[i] !in unique && |recs[i]| > 10 {
        unique := unique + [recs[i]];
      }
    }
    assert recs[..|recs|] == recs;
  }

  /** `generate_smart_recommendations`, with the generated lines as a parameter. */
  method SmartRecommendations(trlScore: real, marketPotential: real, docs: seq<Document>, aiLines: seq<string>)
    returns (recommendations: seq<string>)
    ensures recommendations == Recommendations(trlScore, marketPotential, docs, aiLines)
  {
    var candidates := Candidates(trlScore, marketPotential, docs, aiLines);
    var unique := Deduplicate(candidates);
    recommendations := unique[..if |unique| < RECOMMENDATION_LIMIT then |unique| else RECOMMENDATION_LIMIT];
  }

  /** The returned list: the cleaned-up candidates. */
  function Recommendations(trlScore: real, marketPotential: real, docs: seq<Document>, aiLines: seq<string>): seq<string>
  {
    Cleaned(Candidates(trlScore, marketPotential, docs, aiLines))
  }

  /** The clean-up keeps exactly the entries longer than 10 characters. */
  lemma {:induction false} UniqueMembers(recs: seq<string>)
    ensures forall x :: x in Unique(recs) <==> x in recs && |x| > 10
  {
    if recs != [] {
      var init, last := recs[..|recs| - 1], recs[|recs| - 1];
      UniqueMembers(init);
      assert recs == init + [last];
    }
  }

  /** The clean-up keeps each entry once. */
  lemma {:induction false} UniqueDistinct(recs: seq<string>)
    ensures Distinct(Unique(recs))
  {
    if recs != [] {
      UniqueDistinct(recs[..|recs| - 1]);
    }
  }

  /** The clean-up keeps entries in order of their first occurrence. */
  lemma {:induction false} UniqueOrder(recs: seq<string>)
    ensures forall x :: x in Unique(recs) ==> x in recs
    ensures forall i, j :: 0 <= i < j < |Unique(recs)| ==> FirstIndex(recs, Unique(recs)[i]) < FirstIndex(recs, Unique(recs)[j])
  {
    if recs != [] {
      var init, last := recs[..|recs| - 1], recs[|recs| - 1];
      UniqueOrder(init);
      var u := Unique(init);
      assert recs == init + [last];
      FirstIndexPrefix(init, last, u);
      if last !in u && |last| > 10 {
        UniqueMembers(init);
        assert last !in init;
        LastFirstIndex(init, last);
        var u' := u + [last];
        forall i, j | 0 <= i < j < |u'| ensures FirstIndex(recs, u'[i]) < FirstIndex(recs, u'[j]) {
          if j == |u| {
            assert u'[i] == u[i] && u[i] in init;
          } else {
            assert u'[i] == u[i] && u'[j] == u[j];
          }
        }
      }
    }
  }

  /** A new element first occurs at the end. */
  lemma LastFirstIndex(init: seq<string>, last: string)
    requires last !in init
    ensures FirstIndex(init + [last], last) == |init|
  {
    assert forall j :: 0 <= j < |init| ==> (init + [last])[j] == init[j] != last;
  }

  /** Appending an element keeps the first occurrence of every element already present. */
  lemma FirstIndexPrefix(init: seq<string>, last: string, u: seq<string>)
    requires forall x :: x in u ==> x in init
    ensures forall x :: x in u ==> FirstIndex(init + [last], x) == FirstIndex(init, x)
  {
    forall x | x in u ensures FirstIndex(init + [last], x) == FirstIndex(init, x) {
      FirstIndexExtend(init, [last], x);
    }
  }

  lemma {:induction false} FirstIndexExtend(a: seq<string>, b: seq<string>, x: string)
    requires x in a
    ensures FirstIndex(a + b, x) == FirstIndex(a, x)
  {
    if a[0] != x {
      assert (a + b)[1..] == a[1..] + b;
      FirstIndexExtend(a[1..], b, x);
    }
  }

  /** The clean-up of a longer list starts with the clean-up of its prefix. */
  lemma {:induction false} UniqueAppend(a: seq<string>, b: seq<string>)
    ensures |Unique(a)| <= |Unique(a + b)| && Unique(a + b)[..|Unique(a)|] == Unique(a)
  {
    if b != [] {
      var init := b[..|b| - 1];
      assert (a + b)[..|a + b| - 1] == a + init;
      UniqueAppend(a, init);
    } else {
      assert a + b == a;
    }
  }

  /** A list of distinct long entries survives the clean-up unchanged. */
  lemma {:induction false} UniqueOfClean(a: seq<string>)
    requires Distinct(a) && forall i :: 0 <= i < |a| ==> |a[i]| > 10
    ensures Unique(a) == a
  {
    if a != [] {
      var init, last := a[..|a| - 1], a[|a| - 1];
      assert forall k :: 0 <= k < |init| ==> init[k] == a[k];
      UniqueOfClean(init);
      assert last !in Unique(init) by {
        forall k | 0 <= k < |init| ensures init[k] != last {
          assert a[k] != a[|a| - 1];
        }
      }
      assert a == init + [last];
    }
  }

  /** The cleaned-up list: the first twelve entries of `Unique`. */
  function Cleaned(recs: seq<string>): seq<string>
  {
    var u := Unique(recs);
    u[..if |u| < RECOMMENDATION_LIMIT then |u| else RECOMMENDATION_LIMIT]
  }

  /**
   * The clean-up returns no duplicates, only entries longer than 10 characters taken from its
   * input, at most twelve of them, in order of first occurrence.
   */
  lemma CleanedSpec(c: seq<string>)
    ensures var r := Cleaned(c);
      && Distinct(r)
      && |r| <= 12
      && (forall i :: 0 <= i < |r| ==> r[i] in c && |r[i]| > 10)
      && (forall i, j :: 0 <= i < j < |r| ==> FirstIndex(c, r[i]) < FirstIndex(c, r[j]))
  {
    var u := Unique(c);
    UniqueMembers(c);
    UniqueDistinct(c);
    UniqueOrder(c);
    var r := Cleaned(c);
    assert forall i :: 0 <= i < |r| ==> r[i] == u[i];
  }

  /** A leading run of at most twelve distinct long entries comes out first, unchanged. */
  lemma CleanedPrefix(c: seq<string>, a: seq<string>)
    requires |a| <= 12 && |a| <= |c| && c[..|a|] == a
    requires Distinct(a) && forall i :: 0 <= i < |a| ==> |a[i]| > 10
    ensures |Cleaned(c)| >= |a| && Cleaned(c)[..|a|] == a
  {
    assert c == a + c[|a|..];
    UniqueOfClean(a);
    UniqueAppend(a, c[|a|..]);
  }

  /** The candidates start with the three TRL-based entries. */
  lemma CandidatesStart(trlScore: real, marketPotential: real, docs: seq<Document>, aiLines: seq<string>)
    ensures var c := Candidates(trlScore, marketPotential, docs, aiLines);
      |c| >= 3 && c[..3] == TrlRecommendations(trlScore)
  {
    TrlRecommendationsClean(trlScore);
    PrefixOfConcat(TrlRecommendations(trlScore), [MarketRecommendation(marketPotential)],
      PatentRecommendations(CountWhere(docs, IsPatent)), SimilarityRecommendations(CountWhere(docs, HighlySimilar)),
      aiLines[..if |aiLines| < 3 then |aiLines| else 3]);
  }

  lemma PrefixOfConcat<T>(a: seq<T>, b: seq<T>, c: seq<T>, d: seq<T>, e: seq<T>)
    ensures |a + b + c + d + e| >= |a| && (a + b + c + d + e)[..|a|] == a
  {
    assert a + b + c + d + e == a + (b + c + d + e);
  }

  /** The three TRL-based entries of each branch are distinct and longer than 10 characters. */
  lemma TrlRecommendationsClean(trlScore: real)
    ensures var t := TrlRecommendations(trlScore);
      |t| == 3 && Distinct(t) && forall i :: 0 <= i < 3 ==> |t[i]| > 10
  {
    var t := TrlRecommendations(trlScore);
    assert |t| == 3;
    assert |t[0]| != |t[1]| && |t[0]| != |t[2]| && |t[1]| != |t[2]|;
  }

  /**
   * The returned recommendations hold no duplicates and only entries longer than 10 characters
   * from the candidates, at most twelve of them.
   */
  lemma RecommendationsSpec(trlScore: real, marketPotential: real, docs: seq<Document>, aiLines: seq<string>)
    ensures var c := Candidates(trlScore, marketPotential, docs, aiLines);
      var r := Recommendations(trlScore, marketPotential, docs, aiLines);
      && Distinct(r)
      && |r| <= 12
      && (forall i :: 0 <= i < |r| ==> r[i] in c && |r[i]| > 10)
  {
    CleanedSpec(Candidates(trlScore, marketPotential, docs, aiLines));
  }

  /** The returned recommendations come in order of first occurrence among the candidates. */
  lemma RecommendationsOrder(trlScore: real, marketPotential: real, docs: seq<Document>, aiLines: seq<string>)
    ensures var c := Candidates(trlScore, marketPotential, docs, aiLines);
      var r := Recommendations(trlScore, marketPotential, docs, aiLines);
      && (forall i :: 0 <= i < |r| ==> r[i] in c)
      && (forall i, j :: 0 <= i < j < |r| ==> FirstIndex(c, r[i]) < FirstIndex(c, r[j]))
  {
    CleanedSpec(Candidates(trlScore, marketPotential, docs, aiLines));
  }

  /** The returned recommendations start with the three TRL-based entries. */
  lemma RecommendationsStart(trlScore: real, marketPotential: real, docs: seq<Document>, aiLines: seq<string>)
    ensures var r := Recommendations(trlScore, marketPotential, docs, aiLines);
      |r| >= 3 && r[..3] == TrlRecommendations(trlScore)
  {
    var c := Candidates(trlScore, marketPotential, docs, aiLines);
    var t := TrlRecommendations(trlScore);
    TrlRecommendationsClean(trlScore);
    CandidatesStart(trlScore, marketPotential, docs, aiLines);
    CleanedPrefix(c, t);
  }
}
