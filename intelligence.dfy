/**
 * The research-intelligence agent: who publishes (authors and institutions by number of
 * authorships), which topics are rare, which authors also appear as inventors of known patents,
 * and which well-cited works touch topics few patents are classified under.
 */
module Intelligence {
  import opened Seqs
  import opened Sorting
  import opened Tally

  /** One authorship of a work: the author's display name and the display names of their institutions. */
  datatype Authorship = Authorship(author: string, institutions: seq<string>)

  /** A work; absent `authorships` and `topics` are empty and an absent `cited_by_count` is 0. */
  datatype Work = Work(title: string, authorships: seq<Authorship>, topics: seq<string>, citedByCount: int)

  /** A known patent; absent `inventors` and `classifications` are empty. */
  datatype Patent = Patent(title: string, inventors: seq<string>, classifications: seq<string>)

  // ---------------------------------------------------------------------------------------------
  // What the loops visit, in visiting order

  /** The author names of some authorships. */
  function AuthorsOf(auths: seq<Authorship>): (r: seq<string>)
    ensures |r| == |auths| && forall i :: 0 <= i < |auths| ==> r[i] == auths[i].author
  {
    if auths == [] then [] else AuthorsOf(auths[..|auths| - 1]) + [auths[|auths| - 1].author]
  }

  /** The institution names of some authorships, one per (authorship, institution) occurrence. */
  function InstitutionsOf(auths: seq<Authorship>): seq<string>
  {
    if auths == [] then [] else InstitutionsOf(auths[..|auths| - 1]) + auths[|auths| - 1].institutions
  }

  /** Every authorship's author name, work by work. */
  function AuthorNames(data: seq<Work>): seq<string>
  {
    if data == [] then [] else AuthorNames(data[..|data| - 1]) + AuthorsOf(data[|data| - 1].authorships)
  }

  /** Every authorship's institution names, work by work. */
  function InstitutionNames(data: seq<Work>): seq<string>
  {
    if data == [] then [] else InstitutionNames(data[..|data| - 1]) + InstitutionsOf(data[|data| - 1].authorships)
  }

  /** Every topic name, work by work. */
  function TopicNames(data: seq<Work>): seq<string>
  {
    if data == [] then [] else TopicNames(data[..|data| - 1]) + data[|data| - 1].topics
  }

  /** The number of authorships of all works. */
  function TotalAuthorships(data: seq<Work>): nat
  {
    if data == [] then 0 else TotalAuthorships(data[..|data| - 1]) + |data[|data| - 1].authorships|
  }

  /** The number of (authorship, institution) occurrences of all works. */
  function TotalAffiliations(data: seq<Work>): nat
  {
    if data == [] then 0 else TotalAffiliations(data[..|data| - 1]) + AffiliationCount(data[|data| - 1].authorships)
  }

  function AffiliationCount(auths: seq<Authorship>): nat
  {
    if auths == [] then 0 else AffiliationCount(auths[..|auths| - 1]) + |auths[|auths| - 1].institutions|
  }

  lemma {:induction false} AuthorNamesLength(data: seq<Work>)
    ensures |AuthorNames(data)| == TotalAuthorships(data)
  {
    if data != [] {
      AuthorNamesLength(data[..|data| - 1]);
    }
  }

  lemma {:induction false} InstitutionsOfLength(auths: seq<Authorship>)
    ensures |InstitutionsOf(auths)| == AffiliationCount(auths)
  {
    if auths != [] {
      InstitutionsOfLength(auths[..|auths| - 1]);
    }
  }

  lemma {:induction false} InstitutionNamesLength(data: seq<Work>)
    ensures |InstitutionNames(data)| == TotalAffiliations(data)
  {
    if data != [] {
      InstitutionNamesLength(data[..|data| - 1]);
      InstitutionsOfLength(data[|data| - 1].authorships);
    }
  }

  // ---------------------------------------------------------------------------------------------
  // get_key_players

  /**
   * `get_key_players`: one count per author name and per institution name, bumped once per
   * authorship and once per (authorship, institution) occurrence, each ranked by count.
   */
  method GetKeyPlayers(data: seq<Work>) returns (topAuthors: seq<Item>, topInstitutions: seq<Item>)
    ensures topAuthors == Ranked(TallyOf(AuthorNames(data)))
    ensures topInstitutions == Ranked(TallyOf(InstitutionNames(data)))
  {
    var authors := Counter([], map[]);
    var institutions := Counter([], map[]);
    for i := 0 to |data|
      invariant authors == TallyOf(AuthorNames(data[..i]))
      invariant institutions == TallyOf(InstitutionNames(data[..i]))
    {
      authors, institutions := CountWork(data[i].authorships, authors, institutions,
                                         AuthorNames(data[..i]), InstitutionNames(data[..i]));
      assert data[..i + 1][..i] == data[..i];
    }
    assert data[..|data|] == data;
    topAuthors := Ranked(authors);
    topInstitutions := Ranked(institutions);
  }

  /** The body of the outer loop of `get_key_players`: the authorships of one work. */
  method CountWork(auths: seq<Authorship>, authors0: Counter, institutions0: Counter,
                   ghost authorsSeen: seq<string>, ghost institutionsSeen: seq<string>)
    returns (authors: Counter, institutions: Counter)
    requires authors0 == TallyOf(authorsSeen) && institutions0 == TallyOf(institutionsSeen)
    ensures authors == TallyOf(authorsSeen + AuthorsOf(auths))
    ensures institutions == TallyOf(institutionsSeen + InstitutionsOf(auths))
  {
    authors, institutions := authors0, institutions0;
    ghost var seenA, seenI := authorsSeen, institutionsSeen;
    for j := 0 to |auths|
      invariant seenA == authorsSeen + AuthorsOf(auths[..j]) && authors == TallyOf(seenA)
      invariant seenI == institutionsSeen + InstitutionsOf(auths[..j]) && institutions == TallyOf(seenI)
    {
      var author := auths[j].author;
      TallyAppend(seenA, author);
      authors := Bump(authors, author);
      institutions := CountInstitutions(auths[j].institutions, institutions, seenI);
      SeenStep(authorsSeen, institutionsSeen, auths, j);
      seenA, seenI := seenA + [author], seenI + auths[j].institutions;
    }
    assert auths[..|auths|] == auths;
  }

  /** What one more authorship adds to the names seen. */
  lemma SeenStep(authorsSeen: seq<string>, institutionsSeen: seq<string>, auths: seq<Authorship>, j: nat)
    requires j < |auths|
    ensures authorsSeen + AuthorsOf(auths[..j + 1]) == authorsSeen + AuthorsOf(auths[..j]) + [auths[j].author]
    ensures institutionsSeen + InstitutionsOf(auths[..j + 1])
         == institutionsSeen + InstitutionsOf(auths[..j]) + auths[j].institutions
  {
    assert auths[..j + 1][..j] == auths[..j];
  }

  /** The innermost loop of `get_key_players`: the institutions of one authorship. */
  method CountInstitutions(insts: seq<string>, institutions0: Counter, ghost seen: seq<string>)
    returns (institutions: Counter)
    requires institutions0 == TallyOf(seen)
    ensures institutions == TallyOf(seen + insts)
  {
    institutions := institutions0;
    assert seen + insts[..0] == seen;
    for k := 0 to |insts|
      invariant institutions == TallyOf(seen + insts[..k])
    {
      TallyAppend(seen + insts[..k], insts[k]);
      assert seen + insts[..k + 1] == seen + insts[..k] + [insts[k]];
      institutions := Bump(institutions, insts[k]);
    }
    assert insts[..|insts|] == insts;
  }

  /**
   * Each ranked author is named by exactly as many authorships as their count, every author is
   * ranked, names are listed once, counts are non-increasing and add up to the number of
   * authorships; the same holds for institutions and (authorship, institution) occurrences.
   */
  lemma KeyPlayersSpec(data: seq<Work>)
    ensures var names, r := AuthorNames(data), Ranked(TallyOf(AuthorNames(data)));
      && (forall i :: 0 <= i < |r| ==> r[i].0 in names && r[i].1 == multiset(names)[r[i].0])
      && (forall i :: 0 <= i < |names| ==> exists j :: 0 <= j < |r| && r[j].0 == names[i])
      && NamesDistinct(r) && SortedDesc(r, CountKey)
      && SumCounts(r) == TotalAuthorships(data)
    ensures var names, r := InstitutionNames(data), Ranked(TallyOf(InstitutionNames(data)));
      && (forall i :: 0 <= i < |r| ==> r[i].0 in names && r[i].1 == multiset(names)[r[i].0])
      && (forall i :: 0 <= i < |names| ==> exists j :: 0 <= j < |r| && r[j].0 == names[i])
      && NamesDistinct(r) && SortedDesc(r, CountKey)
      && SumCounts(r) == TotalAffiliations(data)
  {
    RankedTally(AuthorNames(data));
    AuthorNamesLength(data);
    RankedTally(InstitutionNames(data));
    InstitutionNamesLength(data);
  }

  // ---------------------------------------------------------------------------------------------
  // find_emerging_trends

  const RARE_TOPIC_LIMIT := 5

  /** `[t for t in topic_counts if topic_counts[t] < 5]`, given the dict's key order. */
  function RareKeys(keys: seq<string>, counts: map<string, nat>): (r: seq<string>)
    ensures forall t :: t in r <==> t in keys && t in counts && counts[t] < RARE_TOPIC_LIMIT
    ensures |r| <= |keys|
  {
    if keys == [] then []
    else
      var k := keys[|keys| - 1];
      RareKeys(keys[..|keys| - 1], counts) + (if k in counts && counts[k] < RARE_TOPIC_LIMIT then [k] else [])
  }

  lemma {:induction false} RareKeysDistinct(keys: seq<string>, counts: map<string, nat>)
    requires Distinct(keys)
    ensures Distinct(RareKeys(keys, counts))
  {
    if keys != [] {
      RareKeysDistinct(keys[..|keys| - 1], counts);
    }
  }

  /** `find_emerging_trends`: the topic counter and the topics counted fewer than five times. */
  method FindEmergingTrends(data: seq<Work>) returns (topicCounts: Counter, underexplored: seq<string>)
    ensures topicCounts == TallyOf(TopicNames(data))
    ensures underexplored == RareKeys(topicCounts.keys, topicCounts.counts)
  {
    topicCounts := Counter([], map[]);
    for i := 0 to |data|
      invariant topicCounts == TallyOf(TopicNames(data[..i]))
    {
      var topics := data[i].topics;
      ghost var before := TopicNames(data[..i]);
      assert before + topics[..0] == before;
      for k := 0 to |topics|
        invariant topicCounts == TallyOf(before + topics[..k])
      {
        TallyAppend(before + topics[..k], topics[k]);
        assert before + topics[..k + 1] == before + topics[..k] + [topics[k]];
        topicCounts := Bump(topicCounts, topics[k]);
      }
      assert topics[..|topics|] == topics;
      assert data[..i + 1][..i] == data[..i];
    }
    assert data[..|data|] == data;
    underexplored := RareKeys(topicCounts.keys, topicCounts.counts);
  }

  /**
   * Every topic's count is its exact number of occurrences, and the underexplored topics are
   * exactly the topics that occur fewer than five times, each listed once.
   */
  lemma TrendsSpec(data: seq<Work>)
    ensures var names, c := TopicNames(data), TallyOf(TopicNames(data));
      && (forall t :: t in c.counts <==> t in names)
      && (forall t :: t in c.counts ==> c.counts[t] == multiset(names)[t])
      && (forall t :: t in RareKeys(c.keys, c.counts) <==> t in names && multiset(names)[t] < 5)
      && Distinct(RareKeys(c.keys, c.counts))
  {
    var names := TopicNames(data);
    var c := TallyOf(names);
    TallyOfCounts(names);
    assert forall t :: t in c.counts ==> c.counts[t] == Get(c, t);
    RareKeysDistinct(c.keys, c.counts);
  }

  // ---------------------------------------------------------------------------------------------
  // match_to_patents

  /** The (work title, patent title) pairs of one author against every patent naming them as inventor. */
  function AuthorMatches(title: string, author: string, patents: seq<Patent>): seq<(string, string)>
  {
    if patents == [] then []
    else
      var p := patents[|patents| - 1];
      AuthorMatches(title, author, patents[..|patents| - 1]) + (if author in p.inventors then [(title, p.title)] else [])
  }

  /** The pairs of one work's authorships. */
  function AuthorshipMatches(title: string, auths: seq<Authorship>, patents: seq<Patent>): seq<(string, string)>
  {
    if auths == [] then []
    else AuthorshipMatches(title, auths[..|auths| - 1], patents) + AuthorMatches(title, auths[|auths| - 1].author, patents)
  }

  /** The pairs of all works, work by work, authorship by authorship, patent by patent. */
  function Matches(data: seq<Work>, patents: seq<Patent>): seq<(string, string)>
  {
    if data == [] then []
    else Matches(data[..|data| - 1], patents) + AuthorshipMatches(data[|data| - 1].title, data[|data| - 1].authorships, patents)
  }

  /** `match_to_patents`. */
  method MatchToPatents(data: seq<Work>, patents: seq<Patent>) returns (matches: seq<(string, string)>)
    ensures matches == Matches(data, patents)
  {
    matches := [];
    for i := 0 to |data|
      invariant matches == Matches(data[..i], patents)
    {
      var item := data[i];
      ghost var before := matches;
      for j := 0 to |item.authorships|
        invariant matches == before + AuthorshipMatches(item.title, item.authorships[..j], patents)
      {
        var author := item.authorships[j].author;
        matches := MatchAuthor(matches, item.title, author, patents);
        assert item.authorships[..j + 1][..j] == item.authorships[..j];
      }
      assert item.authorships[..|item.authorships|] == item.authorships;
      assert data[..i + 1][..i] == data[..i];
    }
    assert data[..|data|] == data;
  }

  /** The innermost loop of `match_to_patents`: one author against every patent. */
  method MatchAuthor(matches0: seq<(string, string)>, title: string, author: string, patents: seq<Patent>)
    returns (matches: seq<(string, string)>)
    ensures matches == matches0 + AuthorMatches(title, author, patents)
  {
    matches := matches0;
    for k := 0 to |patents|
      invariant matches == matches0 + AuthorMatches(title, author, patents[..k])
    {
      assert patents[..k + 1][..k] == patents[..k];
      if author in patents[k].inventors {
        matches := matches + [(title, patents[k].title)];
      }
    }
    assert patents[..|patents|] == patents;
  }

  lemma {:induction false} AuthorMatchesSpec(title: string, author: string, patents: seq<Patent>)
    ensures forall m :: (m in AuthorMatches(title, author, patents)
      <==> exists k :: 0 <= k < |patents| && author in patents[k].inventors && m == (title, patents[k].title))
  {
    if patents != [] {
      var init := patents[..|patents| - 1];
      AuthorMatchesSpec(title, author, init);
      assert forall k :: 0 <= k < |init| ==> init[k] == patents[k];
    }
  }

  lemma {:induction false} AuthorshipMatchesSpec(title: string, auths: seq<Authorship>, patents: seq<Patent>)
    ensures forall m :: (m in AuthorshipMatches(title, auths, patents)
      <==> exists j, k :: 0 <= j < |auths| && 0 <= k < |patents| && auths[j].author in patents[k].inventors
                          && m == (title, patents[k].title))
  {
    if auths != [] {
      var init := auths[..|auths| - 1];
      AuthorshipMatchesSpec(title, init, patents);
      AuthorMatchesSpec(title, auths[|auths| - 1].author, patents);
      assert forall j :: 0 <= j < |init| ==> init[j] == auths[j];
    }
  }

  /**
   * A pair is emitted exactly when some authorship of the work with that title names an inventor
   * of the patent with that title.
   */
  lemma {:induction false} MatchesSpec(data: seq<Work>, patents: seq<Patent>)
    ensures forall m :: (m in Matches(data, patents)
      <==> exists i, j, k :: 0 <= i < |data| && 0 <= j < |data[i].authorships| && 0 <= k < |patents|
                             && data[i].authorships[j].author in patents[k].inventors
                             && m == (data[i].title, patents[k].title))
  {
    if data != [] {
      var init, last := data[..|data| - 1], data[|data| - 1];
      MatchesSpec(init, patents);
      AuthorshipMatchesSpec(last.title, last.authorships, patents);
      assert forall i :: 0 <= i < |init| ==> init[i] == data[i];
    }
  }

  /** Pairs are not de-duplicated: two authorships of the same inventor give the pair twice. */
  lemma DuplicatesKept(title: string, author: string, institutions: seq<string>, p: Patent)
    requires author in p.inventors
    ensures Matches([Work(title, [Authorship(author, institutions), Authorship(author, [])], [], 0)], [p])
         == [(title, p.title), (title, p.title)]
  {
    var a1, a2 := Authorship(author, institutions), Authorship(author, []);
    var auths := [a1, a2];
    assert [p][..0] == [];
    assert AuthorMatches(title, author, [p]) == [(title, p.title)];
    assert auths[..1] == [a1] && [a1][..0] == [];
    assert AuthorshipMatches(title, [a1], [p]) == [(title, p.title)];
    assert AuthorshipMatches(title, auths, [p]) == [(title, p.title), (title, p.title)];
    var w := Work(title, auths, [], 0);
    assert [w][..0] == [];
  }

  // ---------------------------------------------------------------------------------------------
  // prioritize_opportunities

  const CITATION_THRESHOLD := 100
  const PATENT_COUNT_LIMIT := 2

  /** `sum(1 for p in patent_db if topic in p.get("classifications", []))`. */
  function ClassifiedCount(patents: seq<Patent>, topic: string): (n: nat)
    ensures n <= |patents|
    ensures n == 0 <==> forall k :: 0 <= k < |patents| ==> topic !in patents[k].classifications
  {
    if patents == [] then 0
    else
      var init := patents[..|patents| - 1];
      assert forall k :: 0 <= k < |init| ==> init[k] == patents[k];
      ClassifiedCount(init, topic) + (if topic in patents[|patents| - 1].classifications then 1 else 0)
  }

  /** An opportunity: a work's title, one of its topics and its citation count. */
  type Opportunity = (string, string, int)

  /** The opportunities of one work's topics. */
  function TopicOpportunities(w: Work, topics: seq<string>, patents: seq<Patent>): seq<Opportunity>
  {
    if topics == [] then []
    else
      var t := topics[|topics| - 1];
      TopicOpportunities(w, topics[..|topics| - 1], patents)
      + (if ClassifiedCount(patents, t) < PATENT_COUNT_LIMIT && w.citedByCount > CITATION_THRESHOLD
         then [(w.title, t, w.citedByCount)] else [])
  }

  function Opportunities(data: seq<Work>, patents: seq<Patent>): seq<Opportunity>
  {
    if data == [] then []
    else Opportunities(data[..|data| - 1], patents) + TopicOpportunities(data[|data| - 1], data[|data| - 1].topics, patents)
  }

  /** `prioritize_opportunities`; the `topic_counts` argument is accepted and not read. */
  method PrioritizeOpportunities(data: seq<Work>, topicCounts: Counter, patents: seq<Patent>)
    returns (opportunities: seq<Opportunity>)
    ensures opportunities == Opportunities(data, patents)
  {
    opportunities := [];
    for i := 0 to |data|
      invariant opportunities == Opportunities(data[..i], patents)
    {
      opportunities := WorkOpportunities(opportunities, data[i], patents);
      assert data[..i + 1][..i] == data[..i];
    }
    assert data[..|data|] == data;
  }

  /** The body of the outer loop of `prioritize_opportunities`: the topics of one work. */
  method WorkOpportunities(opportunities0: seq<Opportunity>, item: Work, patents: seq<Patent>)
    returns (opportunities: seq<Opportunity>)
    ensures opportunities == opportunities0 + TopicOpportunities(item, item.topics, patents)
  {
    opportunities := opportunities0;
    var topicNames := item.topics;
    var citations := item.citedByCount;
    for j := 0 to |topicNames|
      invariant opportunities == opportunities0 + TopicOpportunities(item, topicNames[..j], patents)
    {
      var topic := topicNames[j];
      var patentCount := ClassifiedCount(patents, topic);
      assert topicNames[..j + 1][..j] == topicNames[..j];
      if patentCount < 2 && citations > 100 {
        opportunities := opportunities + [(item.title, topic, citations)];
      }
    }
    assert topicNames[..|topicNames|] == topicNames;
  }

  lemma {:induction false} TopicOpportunitiesSpec(w: Work, topics: seq<string>, patents: seq<Patent>)
    ensures forall o :: (o in TopicOpportunities(w, topics, patents)
      <==> exists j :: 0 <= j < |topics| && ClassifiedCount(patents, topics[j]) < 2 && w.citedByCount > 100
                       && o == (w.title, topics[j], w.citedByCount))
  {
    if topics != [] {
      var init := topics[..|topics| - 1];
      TopicOpportunitiesSpec(w, init, patents);
      assert forall j :: 0 <= j < |init| ==> init[j] == topics[j];
    }
  }

  /**
   * An opportunity (title, topic, citations) is emitted exactly when a work with that title
   * lists the topic, fewer than two patents are classified under it, and the work has more than
   * 100 citations, which are the ones reported.
   */
  lemma {:induction false} OpportunitiesSpec(data: seq<Work>, patents: seq<Patent>)
    ensures forall o :: (o in Opportunities(data, patents)
      <==> exists i, j :: 0 <= i < |data| && 0 <= j < |data[i].topics|
                          && ClassifiedCount(patents, data[i].topics[j]) < 2 && data[i].citedByCount > 100
                          && o == (data[i].title, data[i].topics[j], data[i].citedByCount))
  {
    if data != [] {
      var init, last := data[..|data| - 1], data[|data| - 1];
      OpportunitiesSpec(init, patents);
      TopicOpportunitiesSpec(last, last.topics, patents);
      assert forall i :: 0 <= i < |init| ==> init[i] == data[i];
    }
  }
}
