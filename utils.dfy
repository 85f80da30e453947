/**
 * Helpers of the analysis utilities: a counter of recent items, the geographic spread of a
 * patent set, and the threshold classifiers for technology readiness (TRL), market readiness,
 * time to market, investment recommendation and risk.
 */
module Utils {
  import opened Wrappers
  import opened Text

  /** A record as a dictionary from field names to text values. */
  type Record = map<string, string>

  /** `d.get(k, default)`. */
  function Get(d: Record, k: string, default: string): string
  {
    if k in d then d[k] else default
  }

  // ---------------------------------------------------------------------------------------------
  // Python's int() on text

  predicate IsDigit(c: char)
  {
    '0' <= c <= '9'
  }

  /** Digits, with single underscores allowed between two digits (the grammar `int()` accepts). */
  predicate DigitGroup(d: string)
  {
    && d != [] && IsDigit(d[0]) && IsDigit(d[|d| - 1])
    && (forall i :: 0 <= i < |d| ==> IsDigit(d[i]) || d[i] == '_')
    && (forall i :: 0 <= i < |d| - 1 ==> d[i] == '_' ==> d[i + 1] != '_')
  }

  /** The value of the digits of `d`, underscores skipped. */
  function DigitsValue(d: string): nat
  {
    if d == [] then 0
    else if IsDigit(d[|d| - 1]) then DigitsValue(d[..|d| - 1]) * 10 + (d[|d| - 1] as int - '0' as int)
    else DigitsValue(d[..|d| - 1])
  }

  /**
   * `int(s)`: surrounding whitespace is ignored, then an optional sign and a digit group; any
   * other text is a `ValueError`, here `None`.
   */
  function ParseInt(s: string): (r: Option<int>)
    ensures r.Some? ==> Strip(s) != []
  {
    var t := Strip(s);
    if t == [] then None
    else if t[0] == '+' || t[0] == '-' then
      var magnitude: int := DigitsValue(t[1..]);
      if DigitGroup(t[1..]) then Some(if t[0] == '-' then -magnitude else magnitude) else None
    else if DigitGroup(t) then Some(DigitsValue(t))
    else None
  }

  /** Four ASCII digits parse to the year they spell. */
  lemma ParseFourDigits(d: string)
    requires |d| == 4 && forall i :: 0 <= i < 4 ==> IsDigit(d[i])
    ensures ParseInt(d) == Some(1000 * (d[0] as int - 48) + 100 * (d[1] as int - 48) + 10 * (d[2] as int - 48) + (d[3] as int - 48))
  {
    StripUnspaced(d);
    assert d[..3][..2] == d[..2] && d[..2][..1] == d[..1] && d[..1][..0] == [];
    assert DigitsValue(d[..1]) == d[0] as int - 48;
    assert DigitsValue(d[..2]) == DigitsValue(d[..1]) * 10 + (d[1] as int - 48);
    assert DigitsValue(d[..3]) == DigitsValue(d[..2]) * 10 + (d[2] as int - 48);
    assert DigitsValue(d) == DigitsValue(d[..3]) * 10 + (d[3] as int - 48);
    assert DigitGroup(d);
  }

  // ---------------------------------------------------------------------------------------------
  // count_recent

  const DEFAULT_RECENT_YEARS := 2
  const DEFAULT_DATE_FIELD := "publication_date"

  /**
   * Whether an item counts as recent: its date text has at least four characters, the first
   * four parse as a year, and that year lies at most `years` before `nowYear`.
   */
  predicate Recent(item: Record, years: int, dateField: string, nowYear: int)
  {
    var date := Get(item, dateField, "");
    |date| >= 4 && ParseInt(date[..4]).Some? && nowYear - ParseInt(date[..4]).value <= years
  }

  /** The positions in `items` of the elements that satisfy `p`. */
  function Positions(items: seq<Record>, p: Record -> bool): set<int>
  {
    set i | 0 <= i < |items| && p(items[i])
  }

  /** The positions of the recent items. */
  function RecentPositions(items: seq<Record>, years: int, dateField: string, nowYear: int): set<int>
  {
    Positions(items, item => Recent(item, years, dateField, nowYear))
  }

  /** `count_recent`; the current year is a parameter. */
  method CountRecent(items: seq<Record>, nowYear: int, years: int := DEFAULT_RECENT_YEARS,
                     dateField: string := DEFAULT_DATE_FIELD)
    returns (count: nat)
    ensures count == |RecentPositions(items, years, dateField, nowYear)|
    ensures count <= |items|
  {
    ghost var p := item => Recent(item, years, dateField, nowYear);
    count := 0;
    for i := 0 to |items|
      invariant count == |Positions(items[..i], p)|
      invariant count <= i
    {
      PositionsStep(items, i, p);
      var date := Get(items[i], dateField, "");
      if date != [] {
        if |date| >= 4 {
          var year := ParseInt(date[..4]);
          if year.Some? {
            if nowYear - year.value <= years {
              count := count + 1;
            }
          }
        }
      }
    }
    assert items[..|items|] == items;
  }

  /** One more item adds its own position exactly when it satisfies `p`. */
  lemma PositionsStep(items: seq<Record>, i: nat, p: Record -> bool)
    requires i < |items|
    ensures |Positions(items[..i + 1], p)| == |Positions(items[..i], p)| + (if p(items[i]) then 1 else 0)
  {
    var a := Positions(items[..i], p);
    var b := Positions(items[..i + 1], p);
    var extra := if p(items[i]) then {i} else {};
    forall j ensures j in b <==> j in a + extra {
      if 0 <= j < i {
        assert items[..i + 1][j] == items[..i][j];
      }
      if j == i {
        assert items[..i + 1][j] == items[i];
      }
    }
    assert b == a + extra;
    assert i !in a;
  }

  /**
   * An item is counted exactly when its date has four leading characters that parse as a year
   * at most `years` years back; a year after `nowYear` is therefore counted whenever `years` is
   * not negative, and an item without the field or with a short date never is.
   */
  lemma RecentSpec(item: Record, years: int, dateField: string, nowYear: int)
    ensures dateField !in item ==> !Recent(item, years, dateField, nowYear)
    ensures dateField in item && |item[dateField]| < 4 ==> !Recent(item, years, dateField, nowYear)
    ensures dateField in item && |item[dateField]| >= 4 && ParseInt(item[dateField][..4]) == Some(nowYear + 1) && years >= 0
        ==> Recent(item, years, dateField, nowYear)
  {
  }

  /** A four-digit year that many years back or later is counted; an older one is not. */
  lemma RecentYear(item: Record, years: int, dateField: string, nowYear: int)
    requires dateField in item && |item[dateField]| >= 4
    requires forall i :: 0 <= i < 4 ==> IsDigit(item[dateField][i])
    ensures var d := item[dateField];
      var year := 1000 * (d[0] as int - 48) + 100 * (d[1] as int - 48) + 10 * (d[2] as int - 48) + (d[3] as int - 48);
      Recent(item, years, dateField, nowYear) <==> nowYear - year <= years
  {
    ParseFourDigits(item[dateField][..4]);
  }

  // ---------------------------------------------------------------------------------------------
  // geographic_diversity

  /** `patent.get("country", patent.get("jurisdiction", ""))`: a present country field wins, even an empty one. */
  function Country(patent: Record): string
  {
    Get(patent, "country", Get(patent, "jurisdiction", ""))
  }

  /** The distinct upper-cased non-empty country codes of the patents. */
  function Countries(patents: seq<Record>): set<string>
  {
    set i | 0 <= i < |patents| && Country(patents[i]) != "" :: Upper(Country(patents[i]))
  }

  /** `min(n / 10.0, 1.0)`. */
  function Spread(n: nat): (r: real)
    ensures 0.0 <= r <= 1.0
    ensures r == 1.0 <==> n >= 10
  {
    if n as real / 10.0 < 1.0 then n as real / 10.0 else 1.0
  }

  /** `geographic_diversity`. */
  method GeographicDiversity(patents: seq<Record>) returns (d: real)
    ensures d == Spread(|Countries(patents)|)
  {
    if patents == [] {
      assert Countries(patents) == {};
      return 0.0;
    }
    var countries: set<string> := {};
    for i := 0 to |patents|
      invariant countries == Countries(patents[..i])
    {
      var country := Get(patents[i], "country", Get(patents[i], "jurisdiction", ""));
      if country != "" {
        countries := countries + {Upper(country)};
      }
      CountriesStep(patents, i);
    }
    assert patents[..|patents|] == patents;
    d := if |countries| as real / 10.0 < 1.0 then |countries| as real / 10.0 else 1.0;
  }

  lemma CountriesStep(patents: seq<Record>, i: nat)
    requires i < |patents|
    ensures Countries(patents[..i + 1])
         == Countries(patents[..i]) + (if Country(patents[i]) != "" then {Upper(Country(patents[i]))} else {})
  {
    var p := patents[..i + 1];
    assert forall j :: 0 <= j < i ==> p[j] == patents[..i][j];
    var lhs := Countries(p);
    var rhs := Countries(patents[..i]) + (if Country(patents[i]) != "" then {Upper(Country(patents[i]))} else {});
    forall c | c in lhs ensures c in rhs {
      var j :| 0 <= j < |p| && Country(p[j]) != "" && Upper(Country(p[j])) == c;
      if j < i {
        assert patents[..i][j] == p[j];
      }
    }
    forall c | c in rhs ensures c in lhs {
      if c in Countries(patents[..i]) {
        var j :| 0 <= j < i && Country(patents[..i][j]) != "" && Upper(Country(patents[..i][j])) == c;
        assert p[j] == patents[..i][j];
      } else {
        assert p[i] == patents[i];
      }
    }
  }

  /**
   * The spread is zero for no patents, never exceeds one, reaches one exactly at ten distinct
   * countries, and counts codes that differ only in letter case once.
   */
  lemma DiversitySpec(patents: seq<Record>, p: Record, q: Record)
    ensures Countries([]) == {} && Spread(|Countries([])|) == 0.0
    ensures 0.0 <= Spread(|Countries(patents)|) <= 1.0
    ensures Spread(|Countries(patents)|) == 1.0 <==> |Countries(patents)| >= 10
    ensures Country(p) != "" && Upper(Country(p)) == Upper(Country(q)) ==> Countries([p, q]) == {Upper(Country(p))}
  {
    if Country(p) != "" && Upper(Country(p)) == Upper(Country(q)) {
      var s := [p, q];
      assert s[0] == p && s[1] == q;
      assert Countries(s) == {Upper(Country(p))};
    }
  }

  // ---------------------------------------------------------------------------------------------
  // Classifiers

  const MARKET_READY := "MARKET_READY"
  const PILOT_DEMONSTRATION := "PILOT_DEMONSTRATION"
  const RESEARCH_DEVELOPMENT := "RESEARCH_DEVELOPMENT"
  const FUNDAMENTAL_RESEARCH := "FUNDAMENTAL_RESEARCH"

  /** `get_trl_category`. */
  function TrlCategory(trl: real): string
  {
    if trl >= 8.0 then MARKET_READY
    else if trl >= 6.0 then PILOT_DEMONSTRATION
    else if trl >= 3.0 then RESEARCH_DEVELOPMENT
    else FUNDAMENTAL_RESEARCH
  }

  /** The rank of a TRL category, from fundamental research (0) to market ready (3). */
  function CategoryRank(category: string): nat
  {
    if category == MARKET_READY then 3
    else if category == PILOT_DEMONSTRATION then 2
    else if category == RESEARCH_DEVELOPMENT then 1
    else 0
  }

  /** The category bands are [8, ∞), [6, 8), [3, 6) and below 3, and a higher TRL never ranks lower. */
  lemma TrlCategorySpec(trl: real, other: real)
    ensures TrlCategory(trl) == MARKET_READY <==> trl >= 8.0
    ensures TrlCategory(trl) == PILOT_DEMONSTRATION <==> 6.0 <= trl < 8.0
    ensures TrlCategory(trl) == RESEARCH_DEVELOPMENT <==> 3.0 <= trl < 6.0
    ensures TrlCategory(trl) == FUNDAMENTAL_RESEARCH <==> trl < 3.0
    ensures trl <= other ==> CategoryRank(TrlCategory(trl)) <= CategoryRank(TrlCategory(other))
  {
  }

  const READINESS_HIGH := "HIGH - Ready for commercial deployment"
  const READINESS_MEDIUM_HIGH := "MEDIUM-HIGH - Near market ready, needs validation"
  const READINESS_MEDIUM := "MEDIUM - Significant development still needed"
  const READINESS_LOW := "LOW - Early stage research"

  /** `get_market_readiness`. */
  function MarketReadiness(trl: real): string
  {
    if trl >= 8.0 then READINESS_HIGH
    else if trl >= 6.0 then READINESS_MEDIUM_HIGH
    else if trl >= 4.0 then READINESS_MEDIUM
    else READINESS_LOW
  }

  /** The rank of a readiness level, from low (0) to high (3). */
  function ReadinessRank(readiness: string): nat
  {
    if readiness == READINESS_HIGH then 3
    else if readiness == READINESS_MEDIUM_HIGH then 2
    else if readiness == READINESS_MEDIUM then 1
    else 0
  }

  /** The readiness bands are [8, ∞), [6, 8), [4, 6) and below 4, and a higher TRL is never less ready. */
  lemma MarketReadinessSpec(trl: real, other: real)
    ensures MarketReadiness(trl) == READINESS_HIGH <==> trl >= 8.0
    ensures MarketReadiness(trl) == READINESS_MEDIUM_HIGH <==> 6.0 <= trl < 8.0
    ensures MarketReadiness(trl) == READINESS_MEDIUM <==> 4.0 <= trl < 6.0
    ensures MarketReadiness(trl) == READINESS_LOW <==> trl < 4.0
    ensures trl <= other ==> ReadinessRank(MarketReadiness(trl)) <= ReadinessRank(MarketReadiness(other))
  {
  }

  /** Python's `int(x)` on a number: truncation toward zero. */
  function Truncate(x: real): (r: int)
    ensures x >= 0.0 ==> r as real <= x < r as real + 1.0
    ensures x < 0.0 ==> r as real - 1.0 < x <= r as real
  {
    if x >= 0.0 then x.Floor else -((-x).Floor)
  }

  /** The time estimates by truncated TRL. */
  const TIME_ESTIMATES: map<int, string> := map[
    1 := "10+ years", 2 := "8-10 years", 3 := "6-8 years",
    4 := "5-7 years", 5 := "4-6 years", 6 := "3-5 years",
    7 := "2-4 years", 8 := "1-2 years", 9 := "0-1 years"]

  const UNKNOWN := "Unknown"

  /** `get_time_to_market`. */
  function TimeToMarket(trl: real): string
  {
    var level := Truncate(trl);
    if level in TIME_ESTIMATES then TIME_ESTIMATES[level] else UNKNOWN
  }

  /**
   * A TRL in [k, k + 1) for k in 1..9 gets the k-th estimate; anything below 1 (including the
   * interval (-1, 1), which truncates to 0) or from 10 up is unknown.
   */
  lemma TimeToMarketSpec(trl: real, k: int)
    ensures 1 <= k <= 9 && k as real <= trl < k as real + 1.0 ==> TimeToMarket(trl) == TIME_ESTIMATES[k]
    ensures TimeToMarket(trl) == UNKNOWN <==> trl < 1.0 || trl >= 10.0
  {
    var level := Truncate(trl);
    if 1 <= k <= 9 && k as real <= trl < k as real + 1.0 {
      assert level == k;
    }
    assert forall l :: l in TIME_ESTIMATES ==> TIME_ESTIMATES[l] != UNKNOWN;
    assert level in TIME_ESTIMATES <==> 1 <= level <= 9;
  }

  const STRONG_BUY := "STRONG BUY - High potential, proceed with patent filing and commercialization"
  const BUY := "BUY - Good potential, conduct deeper due diligence"
  const HOLD := "HOLD - Monitor development, reassess in 6-12 months"
  const PASS := "PASS - Insufficient commercial potential at this time"

  /** `get_investment_recommendation`. */
  function InvestmentRecommendation(score: real): string
  {
    if score >= 8.0 then STRONG_BUY
    else if score >= 6.0 then BUY
    else if score >= 4.0 then HOLD
    else PASS
  }

  /** The strength of a recommendation, from pass (0) to strong buy (3). */
  function RecommendationRank(recommendation: string): nat
  {
    if recommendation == STRONG_BUY then 3
    else if recommendation == BUY then 2
    else if recommendation == HOLD then 1
    else 0
  }

  /**
   * The recommendation bands are [8, ∞), [6, 8), [4, 6) and below 4, and a higher score never
   * gets a weaker recommendation.
   */
  lemma InvestmentRecommendationSpec(score: real, other: real)
    ensures InvestmentRecommendation(score) == STRONG_BUY <==> score >= 8.0
    ensures InvestmentRecommendation(score) == BUY <==> 6.0 <= score < 8.0
    ensures InvestmentRecommendation(score) == HOLD <==> 4.0 <= score < 6.0
    ensures InvestmentRecommendation(score) == PASS <==> score < 4.0
    ensures score <= other ==> RecommendationRank(InvestmentRecommendation(score)) <= RecommendationRank(InvestmentRecommendation(other))
  {
  }

  const CLEAR_MARKET_GAP := "CLEAR_MARKET_GAP_IDENTIFIED"
  const LOW_RISK := "LOW RISK - Clear market opportunity with mature technology"
  const MEDIUM_RISK := "MEDIUM RISK - One major risk factor identified"
  const HIGH_RISK := "HIGH RISK - Multiple risk factors present"

  /** `get_risk_assessment`, given the gap status and the estimated TRL of its two arguments. */
  function RiskAssessment(gapStatus: string, estimatedTrl: real): string
  {
    var gapLow := gapStatus == CLEAR_MARKET_GAP;
    var trlLow := estimatedTrl >= 6.0;
    if gapLow && trlLow then LOW_RISK
    else if gapLow || trlLow then MEDIUM_RISK
    else HIGH_RISK
  }

  /** The severity of a risk level, from low (0) to high (2). */
  function RiskRank(risk: string): nat
  {
    if risk == HIGH_RISK then 2
    else if risk == MEDIUM_RISK then 1
    else 0
  }

  /**
   * Low risk needs both factors low, medium risk exactly one, high risk neither; a more mature
   * technology never raises the risk.
   */
  lemma RiskAssessmentSpec(gapStatus: string, estimatedTrl: real, otherTrl: real)
    ensures var gapLow, trlLow := gapStatus == CLEAR_MARKET_GAP, estimatedTrl >= 6.0;
      && (RiskAssessment(gapStatus, estimatedTrl) == LOW_RISK <==> gapLow && trlLow)
      && (RiskAssessment(gapStatus, estimatedTrl) == MEDIUM_RISK <==> gapLow != trlLow)
      && (RiskAssessment(gapStatus, estimatedTrl) == HIGH_RISK <==> !gapLow && !trlLow)
    ensures estimatedTrl <= otherTrl ==> RiskRank(RiskAssessment(gapStatus, otherTrl)) <= RiskRank(RiskAssessment(gapStatus, estimatedTrl))
  {
  }
}
