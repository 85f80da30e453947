/**
 * The alert data model: statuses, frequencies, the stored alert and notification records, the
 * outcome of one call to the external similarity matcher, and the cadence table.
 * Timestamps are whole seconds; the caller supplies the current time.
 */
module AlertTypes {
  import opened Wrappers

  datatype AlertStatus = Active | Paused | Deleted

  datatype AlertFrequency = Daily | Weekly | Monthly

  /** Seconds in a day. */
  const DAY: int := 86400

  /** One document the matcher reports as similar to an alert's research. */
  datatype AlertResult = AlertResult(
    id: string,
    title: string,
    similarityScore: real,
    documentType: string,
    publicationDate: string,
    authors: seq<string>,
    institutions: seq<string>,
    abstractText: string,
    url: string,
    alertReason: string)

  /** A standing search of one user. `lastRun` and `nextRun` are absent until set. */
  datatype PatentAlert = PatentAlert(
    id: string,
    userId: string,
    researchTitle: string,
    researchAbstract: string,
    similarityThreshold: real,
    lookbackDays: int,
    frequency: AlertFrequency,
    status: AlertStatus,
    createdAt: int,
    updatedAt: int,
    lastRun: Option<int>,
    nextRun: Option<int>,
    notificationCount: nat)

  /** The results of one run of an alert that found something. */
  datatype AlertNotification = AlertNotification(
    id: string,
    alertId: string,
    alertResults: seq<AlertResult>,
    createdAt: int,
    read: bool)

  /** What one call of the similarity matcher gives: an exception, or a list of results. */
  datatype MatcherOutcome = MatcherFailed | Matches(results: seq<AlertResult>)

  /**
   * The external matcher, as a function of what it is given: the research abstract and title,
   * the similarity threshold and the lookback window in days.
   */
  type Matcher = (string, string, real, int) -> MatcherOutcome

  /** The matcher's answer for an alert's search criteria. */
  function Query(matcher: Matcher, alert: PatentAlert): MatcherOutcome
  {
    matcher(alert.researchAbstract, alert.researchTitle, alert.similarityThreshold, alert.lookbackDays)
  }

  /** A run found something: the matcher answered with a non-empty list. */
  predicate Found(outcome: MatcherOutcome)
  {
    outcome.Matches? && outcome.results != []
  }

  /** The interval between two runs: one day, one week, or a fixed thirty days. */
  function Period(frequency: AlertFrequency): (p: int)
    ensures p >= DAY
  {
    match frequency
    case Daily => DAY
    case Weekly => 7 * DAY
    case Monthly => 30 * DAY
  }

  /** `_calculate_next_run`: the time one period after `fromTime`. */
  function CalculateNextRun(frequency: AlertFrequency, fromTime: int): (r: int)
    ensures r > fromTime
  {
    fromTime + Period(frequency)
  }

  /** The cadence table: daily one day, weekly seven days, monthly thirty days, and no two frequencies share a period. */
  lemma PeriodTable()
    ensures Period(Daily) == DAY && Period(Weekly) == 7 * DAY && Period(Monthly) == 30 * DAY
    ensures forall f, g :: f != g ==> Period(f) != Period(g)
  {
  }
}
