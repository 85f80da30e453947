/**
 * The licensing-opportunity mapper: potential licensees are the assignees of patents citing the
 * focal group's patents, gap opportunities are companies in the domain of well-scoring
 * publications, and the two lists are ranked together by relevance. The patent database, the
 * relevance and value estimates, the commercialization assessment and the company lookup are
 * collaborators handed in as functions; their current stub behaviour is modelled alongside.
 */
module LicensingOpportunities {
  import opened Sorting
  import opened Text

  /** A patent record; a missing `assignee` is the empty string. */
  datatype PatentRecord = PatentRecord(id: string, assignee: string)

  /** A publication record, reduced to the topics the company lookup receives. */
  datatype Publication = Publication(title: string, topics: seq<string>)

  /** A company found in a domain; missing `contact` and `market_position` take the defaults. */
  datatype Company = Company(name: string, marketPosition: string, contact: map<string, string>)

  /** The commercialization assessment of a publication. */
  datatype Assessment = Assessment(score: real, gaps: seq<string>, estimatedValue: string)

  /** `LicensingOpportunity`. */
  datatype Opportunity = Opportunity(
    entityName: string,
    entityType: string,
    opportunityType: string,
    relevanceScore: real,
    patentPortfolio: seq<PatentRecord>,
    technologyGaps: seq<string>,
    contactInformation: map<string, string>,
    marketPosition: string,
    licensingHistory: seq<PatentRecord>,
    estimatedValue: string)

  /** The collaborators the mapper calls. */
  datatype Collaborators = Collaborators(
    citingPatents: string -> seq<PatentRecord>,
    licensingRelevance: (PatentRecord, PatentRecord, string) -> real,
    licensingValue: (PatentRecord, PatentRecord) -> string,
    commercializationPotential: Publication -> Assessment,
    companiesInDomain: seq<string> -> seq<Company>)

  /** `self.opportunity_threshold`. */
  const OPPORTUNITY_THRESHOLD := 0.7
  /** The commercialization score a publication must exceed. */
  const COMMERCIALIZATION_THRESHOLD := 0.8

  const LICENSING_OUT := "licensing_out"
  const UNIVERSITY := "university"
  const COMPANY := "company"
  const RESEARCH_INSTITUTE := "research_institute"
  const UNKNOWN_POSITION := "Unknown"

  // ---------------------------------------------------------------------------------------------
  // _classify_entity_type

  const UNIVERSITY_TERMS := ["university", "college", "institute"]
  const COMPANY_TERMS := ["inc", "corp", "ltd", "llc", "company"]

  /** `any(term in s for term in terms)`. */
  predicate ContainsAny(s: string, terms: seq<string>)
  {
    exists i :: 0 <= i < |terms| && Contains(s, terms[i])
  }

  /** `_classify_entity_type`: by substrings of the lower-cased name, the university terms first. */
  function ClassifyEntityType(entityName: string): (r: string)
    ensures r == UNIVERSITY || r == COMPANY || r == RESEARCH_INSTITUTE
  {
    var entityLower := Lower(entityName);
    if ContainsAny(entityLower, UNIVERSITY_TERMS) then UNIVERSITY
    else if ContainsAny(entityLower, COMPANY_TERMS) then COMPANY
    else RESEARCH_INSTITUTE
  }

  /**
   * A name is a university exactly when its lower-cased form contains "university", "college" or
   * "institute"; a company exactly when it contains none of those and one of "inc", "corp",
   * "ltd", "llc", "company"; a research institute exactly when it contains none of the eight.
   */
  lemma ClassifySpec(name: string)
    ensures var s, r := Lower(name), ClassifyEntityType(name);
      && (r == UNIVERSITY <==> Contains(s, "university") || Contains(s, "college") || Contains(s, "institute"))
      && (r == COMPANY <==> !(Contains(s, "university") || Contains(s, "college") || Contains(s, "institute"))
                            && (Contains(s, "inc") || Contains(s, "corp") || Contains(s, "ltd")
                                || Contains(s, "llc") || Contains(s, "company")))
      && (r == RESEARCH_INSTITUTE <==>
            !(Contains(s, "university") || Contains(s, "college") || Contains(s, "institute")
              || Contains(s, "inc") || Contains(s, "corp") || Contains(s, "ltd")
              || Contains(s, "llc") || Contains(s, "company")))
  {
    var s := Lower(name);
    assert ContainsAny(s, UNIVERSITY_TERMS) <==> Contains(s, "university") || Contains(s, "college") || Contains(s, "institute") by {
      assert UNIVERSITY_TERMS[0] == "university" && UNIVERSITY_TERMS[1] == "college" && UNIVERSITY_TERMS[2] == "institute";
    }
    assert ContainsAny(s, COMPANY_TERMS) <==> (Contains(s, "inc") || Contains(s, "corp") || Contains(s, "ltd")
                                              || Contains(s, "llc") || Contains(s, "company")) by {
      assert COMPANY_TERMS[0] == "inc" && COMPANY_TERMS[1] == "corp" && COMPANY_TERMS[2] == "ltd";
      assert COMPANY_TERMS[3] == "llc" && COMPANY_TERMS[4] == "company";
    }
  }

  /** Matching ignores case. */
  lemma ClassifyIgnoresCase(a: string, b: string)
    requires Lower(a) == Lower(b)
    ensures ClassifyEntityType(a) == ClassifyEntityType(b)
  {
  }

  /** The university check wins: a name containing both "institute" and "inc" is a university. */
  lemma UniversityCheckWins(name: string)
    requires Contains(Lower(name), "institute") && Contains(Lower(name), "inc")
    ensures ClassifyEntityType(name) == UNIVERSITY
  {
    assert UNIVERSITY_TERMS[2] == "institute";
  }

  /** No occurrence of `sub` starts at a position holding a character other than its first. */
  lemma NoOccurrence(s: string, sub: string)
    requires sub != []
    requires forall i :: 0 <= i <= |s| - |sub| ==> s[i] != sub[0]
    ensures !Contains(s, sub)
  {
    forall i | 0 <= i <= |s| - |sub|
      ensures !OccursAt(s, sub, i)
    {
      assert s[i..i + |sub|][0] == s[i];
    }
  }

  /** Matching is by substring: "Princeton" contains "inc" and is classified as a company. */
  lemma PrincetonIsCompany()
    ensures ClassifyEntityType("Princeton") == COMPANY
  {
    var s := Lower("Princeton");
    assert s == "princeton";
    NoOccurrence(s, "university");
    NoOccurrence(s, "college");
    NoOccurrence(s, "institute");
    assert OccursAt(s, "inc", 2);
    ClassifySpec("Princeton");
  }

  // ---------------------------------------------------------------------------------------------
  // _find_potential_licensees

  /** The opportunity for the owner of a patent citing one of the focal group's patents. */
  function Licensee(patent: PatentRecord, citing: PatentRecord, relevance: real, c: Collaborators): Opportunity
  {
    Opportunity(citing.assignee, ClassifyEntityType(citing.assignee), LICENSING_OUT, relevance,
                [citing], [], map[], UNKNOWN_POSITION, [], c.licensingValue(patent, citing))
  }

  /** Whether a citing patent is a licensing opportunity. */
  predicate Qualifies(focalGroup: string, patent: PatentRecord, citing: PatentRecord, domain: string, c: Collaborators)
  {
    citing.assignee != [] && citing.assignee != focalGroup
    && c.licensingRelevance(patent, citing, domain) >= OPPORTUNITY_THRESHOLD
  }

  /** The opportunities from some of the patents citing `patent`, in order. */
  function CitingLicensees(focalGroup: string, patent: PatentRecord, citing: seq<PatentRecord>, domain: string,
                           c: Collaborators): seq<Opportunity>
  {
    if citing == [] then []
    else
      var q := citing[|citing| - 1];
      CitingLicensees(focalGroup, patent, citing[..|citing| - 1], domain, c)
      + (if Qualifies(focalGroup, patent, q, domain, c)
         then [Licensee(patent, q, c.licensingRelevance(patent, q, domain), c)] else [])
  }

  /** The potential licensees of some patents, patent by patent. */
  function Licensees(focalGroup: string, patents: seq<PatentRecord>, domain: string, c: Collaborators): seq<Opportunity>
  {
    if patents == [] then []
    else
      var p := patents[|patents| - 1];
      Licensees(focalGroup, patents[..|patents| - 1], domain, c)
      + CitingLicensees(focalGroup, p, c.citingPatents(p.id), domain, c)
  }

  /** `_find_potential_licensees`. */
  method FindPotentialLicensees(focalGroup: string, patents: seq<PatentRecord>, domain: string, c: Collaborators)
    returns (opportunities: seq<Opportunity>)
    ensures opportunities == Licensees(focalGroup, patents, domain, c)
  {
    opportunities := [];
    for i := 0 to |patents|
      invariant opportunities == Licensees(focalGroup, patents[..i], domain, c)
    {
      var patent := patents[i];
      var citingPatents := c.citingPatents(patent.id);
      opportunities := AppendLicensees(opportunities, focalGroup, patent, citingPatents, domain, c);
      assert patents[..i + 1][..i] == patents[..i];
    }
    assert patents[..|patents|] == patents;
  }

  /** The inner loop of `_find_potential_licensees`: the patents citing one patent. */
  method AppendLicensees(opportunities0: seq<Opportunity>, focalGroup: string, patent: PatentRecord,
                         citingPatents: seq<PatentRecord>, domain: string, c: Collaborators)
    returns (opportunities: seq<Opportunity>)
    ensures opportunities == opportunities0 + CitingLicensees(focalGroup, patent, citingPatents, domain, c)
  {
    opportunities := opportunities0;
    for j := 0 to |citingPatents|
      invariant opportunities == opportunities0 + CitingLicensees(focalGroup, patent, citingPatents[..j], domain, c)
    {
      var citing := citingPatents[j];
      var owner := citing.assignee;
      assert citingPatents[..j + 1][..j] == citingPatents[..j];
      if owner != [] && owner != focalGroup {
        var relevance := c.licensingRelevance(patent, citing, domain);
        if relevance >= OPPORTUNITY_THRESHOLD {
          var opportunity := Opportunity(owner, ClassifyEntityType(owner), LICENSING_OUT, relevance,
                                         [citing], [], map[], UNKNOWN_POSITION, [],
                                         c.licensingValue(patent, citing));
          opportunities := opportunities + [opportunity];
        }
      }
    }
    assert citingPatents[..|citingPatents|] == citingPatents;
  }

  lemma {:induction false} CitingLicenseesSpec(focalGroup: string, patent: PatentRecord, citing: seq<PatentRecord>,
                                               domain: string, c: Collaborators)
    ensures forall o :: (o in CitingLicensees(focalGroup, patent, citing, domain, c)
      <==> exists j :: 0 <= j < |citing| && Qualifies(focalGroup, patent, citing[j], domain, c)
                       && o == Licensee(patent, citing[j], c.licensingRelevance(patent, citing[j], domain), c))
  {
    if citing != [] {
      var init := citing[..|citing| - 1];
      CitingLicenseesSpec(focalGroup, patent, init, domain, c);
      assert forall j :: 0 <= j < |init| ==> init[j] == citing[j];
    }
  }

  /**
   * An opportunity is a potential licensee exactly when it is built from a patent citing one of
   * the focal group's patents whose assignee is non-empty, differs from the focal group and whose
   * relevance reaches the threshold (inclusively).
   */
  lemma {:induction false} LicenseesSpec(focalGroup: string, patents: seq<PatentRecord>, domain: string, c: Collaborators)
    ensures forall o :: (o in Licensees(focalGroup, patents, domain, c)
      <==> exists i, j :: 0 <= i < |patents| && 0 <= j < |c.citingPatents(patents[i].id)|
                          && Qualifies(focalGroup, patents[i], c.citingPatents(patents[i].id)[j], domain, c)
                          && o == Licensee(patents[i], c.citingPatents(patents[i].id)[j],
                                           c.licensingRelevance(patents[i], c.citingPatents(patents[i].id)[j], domain), c))
  {
    if patents != [] {
      var init, last := patents[..|patents| - 1], patents[|patents| - 1];
      LicenseesSpec(focalGroup, init, domain, c);
      CitingLicenseesSpec(focalGroup, last, c.citingPatents(last.id), domain, c);
      assert forall i :: 0 <= i < |init| ==> init[i] == patents[i];
    }
  }

  /** Every potential licensee is a named outside owner, licensed out, at a relevance of at least 0.7. */
  lemma LicenseeShape(focalGroup: string, patents: seq<PatentRecord>, domain: string, c: Collaborators)
    ensures forall o :: o in Licensees(focalGroup, patents, domain, c) ==>
      o.entityName != [] && o.entityName != focalGroup && o.relevanceScore >= OPPORTUNITY_THRESHOLD
      && o.opportunityType == LICENSING_OUT && o.entityType == ClassifyEntityType(o.entityName)
      && |o.patentPortfolio| == 1 && o.patentPortfolio[0].assignee == o.entityName
  {
    LicenseesSpec(focalGroup, patents, domain, c);
  }

  /** A citing patent whose relevance is exactly the threshold is an opportunity. */
  lemma ThresholdInclusive(focalGroup: string, patent: PatentRecord, citing: PatentRecord, domain: string, c: Collaborators)
    requires c.citingPatents(patent.id) == [citing]
    requires citing.assignee != [] && citing.assignee != focalGroup
    requires c.licensingRelevance(patent, citing, domain) == OPPORTUNITY_THRESHOLD
    ensures Licensees(focalGroup, [patent], domain, c) == [Licensee(patent, citing, OPPORTUNITY_THRESHOLD, c)]
  {
    assert [patent][..0] == [];
    assert [citing][..0] == [];
    assert CitingLicensees(focalGroup, patent, [citing], domain, c) == [Licensee(patent, citing, OPPORTUNITY_THRESHOLD, c)];
  }

  // ---------------------------------------------------------------------------------------------
  // _identify_technology_gaps

  /** The gap opportunity for a company in the domain of a well-scoring publication. */
  function GapOpportunity(a: Assessment, company: Company): Opportunity
  {
    Opportunity(company.name, COMPANY, LICENSING_OUT, a.score, [], a.gaps, company.contact,
                company.marketPosition, [], a.estimatedValue)
  }

  /** One gap opportunity per company, in order. */
  function CompanyGaps(a: Assessment, companies: seq<Company>): (r: seq<Opportunity>)
    ensures |r| == |companies|
    ensures forall j :: 0 <= j < |companies| ==> r[j] == GapOpportunity(a, companies[j])
  {
    if companies == [] then []
    else CompanyGaps(a, companies[..|companies| - 1]) + [GapOpportunity(a, companies[|companies| - 1])]
  }

  /** The gap opportunities of one publication. */
  function PublicationGaps(pub: Publication, c: Collaborators): seq<Opportunity>
  {
    var a := c.commercializationPotential(pub);
    if a.score > COMMERCIALIZATION_THRESHOLD then CompanyGaps(a, c.companiesInDomain(pub.topics)) else []
  }

  /** The gap opportunities of some publications, publication by publication. */
  function Gaps(publications: seq<Publication>, c: Collaborators): seq<Opportunity>
  {
    if publications == [] then []
    else Gaps(publications[..|publications| - 1], c) + PublicationGaps(publications[|publications| - 1], c)
  }

  /** `_identify_technology_gaps`; the domain and patents are accepted and not read. */
  method IdentifyTechnologyGaps(domain: string, patents: seq<PatentRecord>, publications: seq<Publication>,
                                c: Collaborators)
    returns (opportunities: seq<Opportunity>)
    ensures opportunities == Gaps(publications, c)
  {
    opportunities := [];
    for i := 0 to |publications|
      invariant opportunities == Gaps(publications[..i], c)
    {
      var pub := publications[i];
      var potential := c.commercializationPotential(pub);
      assert publications[..i + 1][..i] == publications[..i];
      if potential.score > 0.8 {
        var relatedCompanies := c.companiesInDomain(pub.topics);
        opportunities := AppendCompanyGaps(opportunities, potential, relatedCompanies);
      }
    }
    assert publications[..|publications|] == publications;
  }

  /** The inner loop of `_identify_technology_gaps`: one opportunity per related company. */
  method AppendCompanyGaps(opportunities0: seq<Opportunity>, potential: Assessment, relatedCompanies: seq<Company>)
    returns (opportunities: seq<Opportunity>)
    ensures opportunities == opportunities0 + CompanyGaps(potential, relatedCompanies)
  {
    opportunities := opportunities0;
    for j := 0 to |relatedCompanies|
      invariant opportunities == opportunities0 + CompanyGaps(potential, relatedCompanies[..j])
    {
      var company := relatedCompanies[j];
      assert relatedCompanies[..j + 1][..j] == relatedCompanies[..j];
      var opportunity := Opportunity(company.name, COMPANY, LICENSING_OUT, potential.score, [],
                                     potential.gaps, company.contact, company.marketPosition, [],
                                     potential.estimatedValue);
      opportunities := opportunities + [opportunity];
    }
    assert relatedCompanies[..|relatedCompanies|] == relatedCompanies;
  }

  /**
   * An opportunity is a gap opportunity exactly when it is built from a publication whose
   * commercialization score is strictly above 0.8 and one of the companies found for its topics.
   */
  lemma {:induction false} GapsSpec(publications: seq<Publication>, c: Collaborators)
    ensures forall o :: (o in Gaps(publications, c)
      <==> exists i, j :: 0 <= i < |publications|
                          && c.commercializationPotential(publications[i]).score > COMMERCIALIZATION_THRESHOLD
                          && 0 <= j < |c.companiesInDomain(publications[i].topics)|
                          && o == GapOpportunity(c.commercializationPotential(publications[i]),
                                                 c.companiesInDomain(publications[i].topics)[j]))
  {
    if publications != [] {
      var init := publications[..|publications| - 1];
      GapsSpec(init, c);
      assert forall i :: 0 <= i < |init| ==> init[i] == publications[i];
    }
  }

  /** A publication scoring exactly 0.8 contributes nothing. */
  lemma ScoreThresholdStrict(pub: Publication, c: Collaborators)
    requires c.commercializationPotential(pub).score == COMMERCIALIZATION_THRESHOLD
    ensures Gaps([pub], c) == []
  {
    assert [pub][..0] == [];
  }

  // ---------------------------------------------------------------------------------------------
  // identify_licensing_opportunities

  /** The ranking key: `x.relevance_score`. */
  function Relevance(o: Opportunity): real
  {
    o.relevanceScore
  }

  /** The combined, ranked opportunities. */
  function Ranking(focalGroup: string, domain: string, patents: seq<PatentRecord>, publications: seq<Publication>,
                   c: Collaborators): seq<Opportunity>
  {
    SortDesc(Licensees(focalGroup, patents, domain, c) + Gaps(publications, c), Relevance)
  }

  /** `identify_licensing_opportunities`: licensees then gaps, sorted by relevance, highest first. */
  method IdentifyLicensingOpportunities(focalGroup: string, domain: string, patents: seq<PatentRecord>,
                                        publications: seq<Publication>, c: Collaborators)
    returns (opportunities: seq<Opportunity>)
    ensures opportunities == Ranking(focalGroup, domain, patents, publications, c)
  {
    var potentialLicensees := FindPotentialLicensees(focalGroup, patents, domain, c);
    var gapOpportunities := IdentifyTechnologyGaps(domain, patents, publications, c);
    var all := potentialLicensees + gapOpportunities;
    opportunities := SortDesc(all, Relevance);
  }

  /**
   * The ranking is a permutation of licensees followed by gaps, in non-increasing relevance, and
   * opportunities of equal relevance keep their order in that concatenation.
   */
  lemma RankingSpec(focalGroup: string, domain: string, patents: seq<PatentRecord>, publications: seq<Publication>,
                    c: Collaborators)
    ensures var all, r := Licensees(focalGroup, patents, domain, c) + Gaps(publications, c),
                          Ranking(focalGroup, domain, patents, publications, c);
      && multiset(r) == multiset(all)
      && (forall i, j :: 0 <= i < j < |r| ==> r[i].relevanceScore >= r[j].relevanceScore)
      && (forall k :: WithKey(r, Relevance, k) == WithKey(all, Relevance, k))
  {
    SortDescCorrect(Licensees(focalGroup, patents, domain, c) + Gaps(publications, c), Relevance);
  }

  // ---------------------------------------------------------------------------------------------
  // The stub collaborators

  /** `_get_citing_patents`: no citing patents. */
  function CitingPatentsStub(patentId: string): (r: seq<PatentRecord>)
    ensures r == []
  {
    []
  }

  /** `_calculate_licensing_relevance`: a fixed 0.75, so every citing patent clears the threshold. */
  function LicensingRelevanceStub(basePatent: PatentRecord, citingPatent: PatentRecord, domain: string): (r: real)
    ensures r >= OPPORTUNITY_THRESHOLD
  {
    0.75
  }

  /** `_estimate_licensing_value`. */
  function LicensingValueStub(basePatent: PatentRecord, citingPatent: PatentRecord): string
  {
    "Medium ($100K-$1M)"
  }

  const TECHCORP := "TechCorp Inc."

  /** `_assess_commercialization_potential`: a fixed assessment with two gaps, scoring 0.85, above the threshold. */
  function CommercializationStub(publication: Publication): (r: Assessment)
    ensures r.score > COMMERCIALIZATION_THRESHOLD && |r.gaps| == 2
  {
    Assessment(0.85, ["Manufacturing scale-up", "Regulatory approval"], "High ($1M+)")
  }

  /** `_find_companies_in_domain`: TechCorp Inc., whatever the topics. */
  function CompaniesStub(topics: seq<string>): (r: seq<Company>)
    ensures |r| == 1 && r[0].name == TECHCORP
  {
    [Company(TECHCORP, "Market Leader", map["email" := "licensing@techcorp.com"])]
  }

  const STUBS := Collaborators(CitingPatentsStub, LicensingRelevanceStub, LicensingValueStub,
                               CommercializationStub, CompaniesStub)

  lemma {:induction false} StubLicenseesNone(focalGroup: string, patents: seq<PatentRecord>, domain: string)
    ensures Licensees(focalGroup, patents, domain, STUBS) == []
  {
    if patents != [] {
      StubLicenseesNone(focalGroup, patents[..|patents| - 1], domain);
    }
  }

  lemma {:induction false} StubGaps(publications: seq<Publication>)
    ensures |Gaps(publications, STUBS)| == |publications|
    ensures forall o :: o in Gaps(publications, STUBS) ==> o == GapOpportunity(CommercializationStub(Publication("", [])), CompaniesStub([])[0])
  {
    if publications != [] {
      StubGaps(publications[..|publications| - 1]);
    }
  }

  /**
   * With the stubs, the mapper returns one opportunity per publication, each licensing out to
   * TechCorp Inc. at relevance 0.85.
   */
  lemma StubbedRanking(focalGroup: string, domain: string, patents: seq<PatentRecord>, publications: seq<Publication>)
    ensures var r := Ranking(focalGroup, domain, patents, publications, STUBS);
      && |r| == |publications|
      && forall i :: 0 <= i < |r| ==>
           r[i].entityName == TECHCORP && r[i].entityType == COMPANY
           && r[i].opportunityType == LICENSING_OUT && r[i].relevanceScore == 0.85
  {
    StubLicenseesNone(focalGroup, patents, domain);
    StubGaps(publications);
    var g := Gaps(publications, STUBS);
    var r := Ranking(focalGroup, domain, patents, publications, STUBS);
    assert [] + g == g;
    SortDescMembers(g, Relevance);
  }
}
