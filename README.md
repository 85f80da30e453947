# EUREKA-INDEX core in Dafny

EUREKA-INDEX helps research groups find patents close to their work. This project models its
core and proves properties of the model.

- **Patent-alert lifecycle.** `AlertService` keeps two in-memory tables, alerts and notifications. Its operations are:
  - create, fetch, list, partially update and soft-delete alerts, all scoped to the owner;
  - list and mark notifications;
  - find the alerts that are due;
  - run one alert against an external matcher.
- **Background scheduler.** `AlertScheduler` has a running/stopped flag and runs one cycle per wake-up. A cycle runs every due alert once, in consecutive batches of five.
- **Pure and loop-based helpers:**
  - the validator for research titles and abstracts;
  - the recency counter, the geographic-diversity measure and the TRL, readiness, time-to-market, investment and risk classifiers;
  - the competitive-landscape and similarity-score bucketing;
  - the similarity context and the recommendation clean-up of the enhanced analysis;
  - the author, institution, topic and contributor counters and rankings of the intelligence agents;
  - the licensing filters, the entity-name classifier and the licensing-opportunity ranking;
  - the reconstruction of an OpenAlex abstract from its inverted index.

## Modules

- **Shared modules:**
  - `Wrappers`: `Option`, for Python's `None`.
  - `Seqs`: filtering, counting, distinctness and subsequences.
  - `Sorting`: Python's stable `sorted(..., reverse=True)`, as an insertion sort keyed by a real number. An ascending sort is the descending sort on the negated key.
  - `Tally`: a Python dict used as a counter. It holds its keys in insertion order and their counts.
  - `Text`: ASCII `lower`/`upper`, Python's `isspace` set, `strip`, substring tests, `split` and `join`.
- **One module per source file:**
  - `AlertTypes` and `AlertServices` (alert_service.py);
  - `AlertSchedulers` (alert_scheduler.py);
  - `ResearchValidation`;
  - `Utils`;
  - `EnhancedAnalysis`;
  - `Intelligence`, `Aggregation`, `Licensing` and `LicensingOpportunities`;
  - `OpenAlex`.

## Conventions

- **Time** is an integer number of seconds, with `DAY = 86400` and `now` as a parameter. "Now" is one instant per call, so the several `datetime.now()` calls within one alert run are taken to be equal.
- **Identifiers.** `uuid4()` becomes `FreshId`, a string that is not among the ids in use.
- **The matcher.** The semantic matcher is a function parameter. It returns either `Failed` (it raised) or a list of results.
- **Dict order.** Every dict keeps Python's insertion order: a map plus a sequence of its keys.
- **Opaque inputs.** A few inputs stand in for code that is not modelled:
  - the formatted entries of the similarity context;
  - the generated text lines added to the recommendations;
  - the licensing collaborators (`_get_citing_patents` and the others).

  These are parameters. The collaborators' current stub implementations are modelled as well (`STUBS`).
- **Shape of the stateful code.** `AlertService` and `AlertScheduler` are classes whose methods change their fields in place. Each method is specified against a function on a `Store` value: `ensures (State(), r) == Create(old(State()), ...)`. Lemmas prove what the source promises about these functions.
- **Shape of the loop code.** Loop-based helpers are methods with loop invariants, proved equal to specification functions. Lemmas establish the properties of those functions.

**Behaviour the model follows as written.**
- **`update_alert` and the next run.** When it changes the frequency, `update_alert` sets the next run to now plus one period (alert_service.py:174-176). It does not use the last run. So after a frequency change the next run need not equal the last run plus one period. `UpdateSpec` states the code's behaviour.
- **Input bounds.** The service checks no bounds on thresholds and lookbacks; the request models of the HTTP routes do (routes/alerts.py:20-34), so they appear here as the `requires` of `CreateAlert` and `UpdateAlert`.
- **`process_all_alerts_now`.** Its docstring says it processes all active alerts. The code only checks that one exists and then runs an ordinary cycle, which processes only the due alerts. `RunNowSkipsUndue` states this.

## Model

| member | source | states |
|---|---|---|
| AlertTypes.CalculateNextRun | backend/src/services/alert_service.py:326-334 | the next run lies strictly after the time it is computed from |
| AlertTypes.PeriodTable | backend/src/services/alert_service.py:328-333 | daily is one day, weekly seven days, monthly thirty days, and no two frequencies share a period |
| AlertTypes.Period | backend/src/services/alert_service.py:328-333 | every period is at least one day |
| AlertServices.FreshId | backend/src/services/alert_service.py:97 | a new identifier is not among the identifiers in use |
| AlertServices.PutValid | backend/src/services/alert_service.py:114 | writing an alert under its id keeps the store well formed, changes only that entry and leaves the notifications alone |
| AlertServices.Create | backend/src/services/alert_service.py:86-117 | `create_alert` on the store; its effect is stated by `CreateSpec` |
| AlertServices.Lookup | backend/src/services/alert_service.py:136-142 | `get_alert` on the store; stated by `LookupSpec` |
| AlertServices.ListAlerts | backend/src/services/alert_service.py:123-130 | `get_alerts` on the store; stated by `ListAlertsSpec` and `ListAlertsMembers` |
| AlertServices.Update | backend/src/services/alert_service.py:148-184 | `update_alert` on the store; stated by `UpdateSpec` |
| AlertServices.SoftDelete | backend/src/services/alert_service.py:190-202 | `delete_alert` on the store; stated by `DeleteSpec` |
| AlertServices.Process | backend/src/services/alert_service.py:208-264 | `process_alert` on the store for the matcher's outcome; stated by `ProcessSpec` |
| AlertServices.ListNotifications | backend/src/services/alert_service.py:266-282 | `get_notifications` on the store; stated by `ListNotificationsSpec` |
| AlertServices.MarkRead | backend/src/services/alert_service.py:288-303 | `mark_notification_read` on the store; stated by `MarkReadSpec` |
| AlertServices.Due | backend/src/services/alert_service.py:309-320 | `get_alerts_due_for_processing` on the store; stated by `DueSpec` |
| AlertServices.CreateSpec | backend/src/services/alert_service.py:96-117 | the new alert has a fresh id, the given criteria, status active, no last run, zero notifications, created and updated now, next run one period later; it is the only change; `get_alert` finds it, `get_alerts` lists it, and it is due exactly once that period has passed |
| AlertServices.LookupSpec | backend/src/services/alert_service.py:136-142 | an alert is returned exactly when it exists, belongs to the caller and is not deleted; no two users can both fetch one alert |
| AlertServices.ListAlertsSpec | backend/src/services/alert_service.py:123-130 | exactly the caller's stored non-deleted alerts, each once, newest first, alerts created at the same time in dict order |
| AlertServices.ListAlertsMembers | backend/src/services/alert_service.py:126-129 | an alert is listed iff it is stored, belongs to the caller and is not deleted; listed ids are distinct |
| AlertServices.UpdateSpec | backend/src/services/alert_service.py:160-184 | nothing changes and none is returned when `get_alert` fails; otherwise each supplied field replaces the old one, the others stay, a new frequency sets the next run one period from now, the update time is now, and no other entry changes |
| AlertServices.UpdateValid | backend/src/services/alert_service.py:160-181 | an update keeps the store well formed |
| AlertServices.ReviseFields | backend/src/services/alert_service.py:166-180 | the field-by-field replacement yields the revised alert |
| AlertServices.DeleteSpec | backend/src/services/alert_service.py:190-202 | deletion succeeds iff `get_alert` finds the alert; the entry stays, marked deleted and updated now; afterwards no user can fetch it and a second delete fails |
| AlertServices.DeletedHidden | backend/src/services/alert_service.py:197-199 | a deleted alert is neither listed nor due |
| AlertServices.PausedNeverDue | backend/src/services/alert_service.py:313-318 | a paused alert is never due, whatever the time |
| AlertServices.ProcessSpec | backend/src/services/alert_service.py:208-264 | an inactive alert changes nothing and yields none; an active one is written back with last run now and next run one period later, whether the matcher failed, found nothing or found something; a notification is made iff results came back, carrying them unread under a fresh id, and the count goes up by one |
| AlertServices.ProcessValid | backend/src/services/alert_service.py:208-264 | a run keeps the store well formed |
| AlertServices.ProcessAlerts | backend/src/services/alert_service.py:235-261 | a run of an active alert writes back exactly that alert, advanced |
| AlertServices.ProcessNotifications | backend/src/services/alert_service.py:223-232 | a run keeps every old notification and adds one iff an active alert found something |
| AlertServices.ProcessFailureIsEmpty | backend/src/services/alert_service.py:244-264 | a failed matcher call and an empty result list give the same state and the same answer |
| AlertServices.ProcessReschedules | backend/src/services/alert_service.py:235-236 | after a run an active alert is scheduled beyond the time it ran, so it is not due again then |
| AlertServices.Reschedule | backend/src/services/alert_service.py:235-238 | the bookkeeping of a run: last run and update time now, next run one period on, count up by one iff a notification was made |
| AlertServices.OwnedAlertIdsSpec | backend/src/services/alert_service.py:269-272 | the caller's alert ids are the ids of the stored alerts the caller owns, deleted ones included |
| AlertServices.OwnedNotificationsSpec | backend/src/services/alert_service.py:274-280 | the caller's notifications are those of the caller's alerts, each once, most recent first |
| AlertServices.ListNotificationsSpec | backend/src/services/alert_service.py:266-282 | notifications of the caller's alerts, deleted alerts included, each once, most recent first, at most `limit` of them; with a limit at least their number, all of them |
| AlertServices.ListNotificationsSound | backend/src/services/alert_service.py:274-282 | every returned notification belongs to one of the caller's alerts; they are distinct, sorted newest first and at most `limit` |
| AlertServices.ListNotificationsComplete | backend/src/services/alert_service.py:282 | a limit at least the number of the caller's notifications returns all of them |
| AlertServices.MarkReadSpec | backend/src/services/alert_service.py:288-303 | succeeds iff the notification exists and its alert is the caller's; then only its read flag changes, otherwise nothing does; marking twice is marking once |
| AlertServices.DueSpec | backend/src/services/alert_service.py:309-320 | exactly the stored alerts that are active with a next run at or before now, in dict order, each once |
| AlertServices.AlertService.constructor | backend/src/services/alert_service.py:80-84 | a new service has no alerts and no notifications |
| AlertServices.AlertService.CreateAlert | backend/src/services/alert_service.py:86-117 | the new state and the alert are those of `Create`, and the store stays well formed |
| AlertServices.AlertService.GetAlerts | backend/src/services/alert_service.py:123-130 | the answer is `ListAlerts` of the current state |
| AlertServices.AlertService.GetAlert | backend/src/services/alert_service.py:136-142 | the answer is `Lookup` of the current state |
| AlertServices.AlertService.UpdateAlert | backend/src/services/alert_service.py:148-184 | the new state and the answer are those of `Update`, and the store stays well formed |
| AlertServices.AlertService.DeleteAlert | backend/src/services/alert_service.py:190-202 | the new state and the answer are those of `SoftDelete`, and the store stays well formed |
| AlertServices.AlertService.ProcessAlert | backend/src/services/alert_service.py:208-264 | the new state and the answer are those of `Process` for the matcher's outcome |
| AlertServices.AlertService.StoreAlert | backend/src/services/alert_service.py:239 | writing an alert is `Put`: an existing key keeps its place, a new one goes last |
| AlertServices.AlertService.GetNotifications | backend/src/services/alert_service.py:266-282 | the answer is `ListNotifications` of the current state |
| AlertServices.AlertService.MarkNotificationRead | backend/src/services/alert_service.py:288-303 | the new state and the answer are those of `MarkRead` |
| AlertServices.AlertService.GetAlertsDueForProcessing | backend/src/services/alert_service.py:309-320 | the answer is `Due` of the current state |
| AlertSchedulers.BatchesFlatten | backend/src/services/alert_scheduler.py:85-88 | the batches put back together are the due list: every element once, in order |
| AlertSchedulers.Batches | backend/src/services/alert_scheduler.py:85-88 | the slices `due[i:i+5]` for `i` in `range(0, len(due), 5)`; stated by `BatchesFlatten`, `BatchesShape` and `BatchesSlices` |
| AlertSchedulers.RunAll | backend/src/services/alert_scheduler.py:98-106 | running a list of alerts one after the other; stated by the `RunAll` lemmas |
| AlertSchedulers.Cycle | backend/src/services/alert_scheduler.py:73-93 | one `_process_due_alerts` cycle at a time; stated by `CycleSpec` |
| AlertSchedulers.Cycles | backend/src/services/alert_scheduler.py:58-69 | the cycles of the scheduler loop over successive wake-ups; stated by `CyclesValid` and `CyclesStep` |
| AlertSchedulers.BatchesShape | backend/src/services/alert_scheduler.py:85-88 | there are ceil(n/5) batches, none empty and none longer than five |
| AlertSchedulers.BatchesSlices | backend/src/services/alert_scheduler.py:86-87 | batch i is the slice `due[5i:5i+5]` |
| AlertSchedulers.RunAllConcat | backend/src/services/alert_scheduler.py:86-88 | running one list and then another is running their concatenation |
| AlertSchedulers.RunBatches | backend/src/services/alert_scheduler.py:86-88 | running batch after batch is running the whole due list |
| AlertSchedulers.RunAllValid | backend/src/services/alert_scheduler.py:98-106 | running any list of alerts keeps the store well formed |
| AlertSchedulers.RunAllLast | backend/src/services/alert_scheduler.py:101-106 | an active alert run last ends advanced by its own run |
| AlertSchedulers.RunAllAdvances | backend/src/services/alert_scheduler.py:98-106 | each of a list of active alerts with distinct ids ends advanced by its own run, so a failing run does not affect the others |
| AlertSchedulers.RunAllLeavesOthers | backend/src/services/alert_scheduler.py:98-106 | alerts with other ids are left as they were |
| AlertSchedulers.RunAllNotifications | backend/src/services/alert_scheduler.py:98-106 | old notifications stay and one is added per alert whose run found something |
| AlertSchedulers.RunDueAlerts | backend/src/services/alert_scheduler.py:73-93 | running a list holding exactly the due alerts once each advances every due alert and leaves every other alert unchanged |
| AlertSchedulers.CycleAlerts | backend/src/services/alert_scheduler.py:73-93 | a cycle advances every due alert and leaves every other alert unchanged |
| AlertSchedulers.CycleNotifications | backend/src/services/alert_scheduler.py:73-93 | a cycle keeps the old notifications and adds one per due alert with results |
| AlertSchedulers.CycleSpec | backend/src/services/alert_scheduler.py:73-96 | one cycle runs every due alert exactly once and nothing else: due alerts get last run now and next run one period later, others are unchanged, no notification is lost, one is added per due alert with results |
| AlertSchedulers.AdvancedNotDue | backend/src/services/alert_service.py:246-247 | an alert advanced at `now` has last run `now`, next run one period later, and is not due at `now` |
| AlertSchedulers.CycleReschedules | backend/src/services/alert_scheduler.py:73-93 | after a cycle every alert that was due has last run now and next run one period later |
| AlertSchedulers.NothingDueAfter | backend/src/services/alert_scheduler.py:73-93 | a store whose formerly due alerts are all advanced at now has nothing due at now |
| AlertSchedulers.CycleClearsBacklog | backend/src/services/alert_scheduler.py:73-93 | after a cycle at `now` nothing is due at `now` any more |
| AlertSchedulers.CycleIdempotent | backend/src/services/alert_scheduler.py:76-80 | a second cycle at the same time finds nothing due and changes nothing |
| AlertSchedulers.CyclesValid | backend/src/services/alert_scheduler.py:58-69 | any number of cycles keeps the store well formed |
| AlertSchedulers.CyclesStep | backend/src/services/alert_scheduler.py:58-69 | the cycles over one more tick are one more cycle |
| AlertSchedulers.RunNowSkipsUndue | backend/src/services/alert_scheduler.py:121-134 | an active alert whose next run is still ahead is not run by `process_all_alerts_now` |
| AlertSchedulers.BatchLoopStep | backend/src/services/alert_scheduler.py:86-91 | one turn of the batch loop adds the next batch, run after the earlier ones |
| AlertSchedulers.ActiveAlerts | backend/src/services/alert_scheduler.py:124-127 | the collected alerts are the active ones, in dict order |
| AlertSchedulers.AlertScheduler.constructor | backend/src/services/alert_scheduler.py:19-30 | a new scheduler is stopped, without a worker, over the given service and interval |
| AlertSchedulers.AlertScheduler.Start | backend/src/services/alert_scheduler.py:32-41 | a running scheduler only warns; otherwise it becomes running and gets a worker |
| AlertSchedulers.AlertScheduler.Stop | backend/src/services/alert_scheduler.py:43-52 | a stopped scheduler only warns; otherwise it becomes stopped |
| AlertSchedulers.AlertScheduler.ProcessAlertBatch | backend/src/services/alert_scheduler.py:98-119 | each alert of the batch is run once, in batch order, and the store stays well formed |
| AlertSchedulers.AlertScheduler.RunInBatches | backend/src/services/alert_scheduler.py:84-91 | the batches run are `Batches(due, 5)` and the new state is that of running the whole due list |
| AlertSchedulers.AlertScheduler.ProcessDueAlerts | backend/src/services/alert_scheduler.py:73-96 | the due list is queried once and run in batches of five; no due alert means nothing runs; the new state is one `Cycle` |
| AlertSchedulers.AlertScheduler.ProcessAllAlertsNow | backend/src/services/alert_scheduler.py:121-138 | without an active alert nothing changes; otherwise the new state is one ordinary cycle |
| AlertSchedulers.AlertScheduler.RunScheduler | backend/src/services/alert_scheduler.py:54-71 | while running, one cycle per wake-up; a stopped scheduler runs none |
| AlertSchedulers.SchedulerRegistry.constructor | backend/src/services/alert_scheduler.py:140-141 | there is no instance at first |
| AlertSchedulers.SchedulerRegistry.GetAlertScheduler | backend/src/services/alert_scheduler.py:143-154 | repeated calls return the same instance; the first creates a stopped scheduler over the given service or a new empty one |
| AlertSchedulers.SchedulerRegistry.StartAlertScheduler | backend/src/services/alert_scheduler.py:156-159 | the instance, created if need be, is running |
| AlertSchedulers.SchedulerRegistry.StopAlertScheduler | backend/src/services/alert_scheduler.py:161-166 | the instance, if any, is stopped and the global cleared |
| ResearchValidation.AppendErrors | backend/src/services/research_analysis_service.py:150-162 | the four conditional appends give one message per failed check, in check order |
| ResearchValidation.Errors | backend/src/services/research_analysis_service.py:150-162 | the error list of `validate_research_input`; stated by `ErrorsSpec` |
| ResearchValidation.ValidateResearchInput | backend/src/services/research_analysis_service.py:150-166 | the error list is that of the four checks, and the input is valid iff it is empty |
| ResearchValidation.ErrorsOfMessages | backend/src/services/research_analysis_service.py:150-162 | the error list is the messages of the failed checks |
| ResearchValidation.Messages | backend/src/services/research_analysis_service.py:150-162 | one message per check, in the same order |
| ResearchValidation.ErrorsOfSpec | backend/src/services/research_analysis_service.py:150-162 | among four outcomes a message is listed iff its check failed, at most four, in the fixed order |
| ResearchValidation.ErrorsSpec | backend/src/services/research_analysis_service.py:152-162 | each message appears iff its check fails, stripped length for the minimums and raw length for the maximums; at most four, in the order title-min, abstract-min, title-max, abstract-max |
| ResearchValidation.ValidSpec | backend/src/services/research_analysis_service.py:164-166 | valid iff the stripped title has at least 5 characters, the raw title at most 500, the stripped abstract at least 20 and the raw abstract at most 5000 |
| ResearchValidation.MaximalTitleAccepted | backend/src/services/research_analysis_service.py:158-159 | a non-blank title of exactly 500 characters raises no title error |
| ResearchValidation.SpacesFailBothTitleChecks | backend/src/services/research_analysis_service.py:152-159 | 501 spaces fail both title checks |
| Utils.ParseInt | src/utils.py:12 | `int()` of a string succeeds only on text that is not blank |
| Utils.ParseFourDigits | src/utils.py:12 | four ASCII digits parse to the year they spell |
| Utils.CountRecent | src/utils.py:3-17 | the count is the number of recent items, at most the number of items |
| Utils.RecentSpec | src/utils.py:8-14 | an item is counted iff its date has four leading characters that parse as a year at most `years` back, so future years count |
| Utils.Recent | src/utils.py:8-14 | the condition under which `count_recent` counts an item; stated by `RecentSpec` and `RecentYear` |
| Utils.RecentYear | src/utils.py:11-14 | a four-digit year at most `years` back is counted, an older one is not |
| Utils.PositionsStep | src/utils.py:7-14 | one more item raises the count by one exactly when it is recent |
| Utils.GeographicDiversity | src/utils.py:87-96 | the result is the spread of the set of upper-cased non-empty country codes |
| Utils.Spread | src/utils.py:96 | the spread lies between zero and one and is one exactly from ten on |
| Utils.CountriesStep | src/utils.py:92-95 | one more patent adds its upper-cased country code, if it has one |
| Utils.DiversitySpec | src/utils.py:87-96 | zero for no patents, never above one, one exactly from ten distinct countries, and codes differing only in case counted once |
| Utils.TrlCategory | src/utils.py:99-106 | `get_trl_category`; stated by `TrlCategorySpec` |
| Utils.MarketReadiness | src/utils.py:109-116 | `get_market_readiness`; stated by `MarketReadinessSpec` |
| Utils.TimeToMarket | src/utils.py:119-126 | `get_time_to_market`; stated by `TimeToMarketSpec` |
| Utils.InvestmentRecommendation | src/utils.py:129-136 | `get_investment_recommendation`; stated by `InvestmentRecommendationSpec` |
| Utils.RiskAssessment | src/utils.py:139-146 | `get_risk_assessment`; stated by `RiskAssessmentSpec` |
| Utils.TrlCategorySpec | src/utils.py:99-106 | bands at 8, 6 and 3; a higher TRL never gets a lower category |
| Utils.MarketReadinessSpec | src/utils.py:109-116 | bands at 8, 6 and 4; a higher TRL is never less ready |
| Utils.Truncate | src/utils.py:125 | `int()` on a number truncates toward zero |
| Utils.TimeToMarketSpec | src/utils.py:119-126 | a TRL in [k, k+1) for k in 1..9 gets the k-th estimate; anything truncating outside 1..9 is unknown |
| Utils.InvestmentRecommendationSpec | src/utils.py:129-136 | bands at 8, 6 and 4; a higher score never gets a weaker recommendation |
| Utils.RiskAssessmentSpec | src/utils.py:139-146 | low risk iff both factors are low, medium iff exactly one, high otherwise; a higher TRL never raises the risk |
| EnhancedAnalysis.CompetitiveLandscapeSpec | backend/src/enhanced_analysis.py:249-287 | intensity by the document total (above 100, 50, 20), position by the high-similarity count (above 10, 5, 0), threat (above 5, 2), recent activity by year at least 2020 |
| EnhancedAnalysis.CompetitiveLandscape | backend/src/enhanced_analysis.py:247-288 | `analyze_competitive_landscape`; stated by `CompetitiveLandscapeSpec` |
| EnhancedAnalysis.UndatedNotRecent | backend/src/enhanced_analysis.py:253 | a patent without a year counts as 2000, so never as recent |
| EnhancedAnalysis.Scores | backend/src/enhanced_analysis.py:295 | one non-zero score per document with a truthy score |
| EnhancedAnalysis.BucketsPartition | backend/src/enhanced_analysis.py:304-307 | every score falls in exactly one bucket |
| EnhancedAnalysis.SimilarityErrors | backend/src/enhanced_analysis.py:292-298 | no documents and no truthy score are the two errors, and the only ones |
| EnhancedAnalysis.DistributionOf | backend/src/enhanced_analysis.py:300-307 | bucket counts add up; minimum and maximum are scores bounding all scores |
| EnhancedAnalysis.SimilarityScoresSpec | backend/src/enhanced_analysis.py:290-309 | with a truthy score, the four bucket counts sum to the number of scored documents, max and min bound the scores, and the trend is concerning above 0.9, competitive above 0.8, favorable otherwise |
| EnhancedAnalysis.AnalyzeSimilarityScores | backend/src/enhanced_analysis.py:290-309 | `analyze_similarity_scores`; stated by `SimilarityErrors` and `SimilarityScoresSpec` |
| EnhancedAnalysis.BuildSimilarityContext | backend/src/enhanced_analysis.py:226-245 | no documents gives the fixed message; otherwise the first eight entries, numbered from 1, joined by newlines |
| EnhancedAnalysis.Entries | backend/src/enhanced_analysis.py:232-243 | one entry per document, numbered from one |
| EnhancedAnalysis.Deduplicate | backend/src/enhanced_analysis.py:460-463 | the clean-up loop computes `Unique` |
| EnhancedAnalysis.SmartRecommendations | backend/src/enhanced_analysis.py:378-465 | the result is the cleaned-up candidate list |
| EnhancedAnalysis.Candidates | backend/src/enhanced_analysis.py:386-458 | the candidate list before clean-up: TRL entries, market entry, patent and similarity entries, then at most three generated lines; stated by `CandidatesStart` |
| EnhancedAnalysis.Recommendations | backend/src/enhanced_analysis.py:460-465 | the cleaned-up candidate list; stated by `RecommendationsSpec`, `RecommendationsOrder` and `RecommendationsStart` |
| EnhancedAnalysis.UniqueMembers | backend/src/enhanced_analysis.py:461-463 | the clean-up keeps exactly the entries longer than 10 characters |
| EnhancedAnalysis.UniqueDistinct | backend/src/enhanced_analysis.py:462 | the clean-up keeps each entry once |
| EnhancedAnalysis.UniqueOrder | backend/src/enhanced_analysis.py:461-463 | the clean-up keeps entries in order of first occurrence |
| EnhancedAnalysis.UniqueAppend | backend/src/enhanced_analysis.py:461-463 | the clean-up of a longer list starts with that of its prefix |
| EnhancedAnalysis.UniqueOfClean | backend/src/enhanced_analysis.py:461-463 | distinct long entries pass the clean-up unchanged |
| EnhancedAnalysis.CleanedSpec | backend/src/enhanced_analysis.py:460-465 | no duplicates, only long entries from the input, at most twelve, in order of first occurrence |
| EnhancedAnalysis.CleanedPrefix | backend/src/enhanced_analysis.py:460-465 | a leading run of at most twelve distinct long entries comes out first, unchanged |
| EnhancedAnalysis.CandidatesStart | backend/src/enhanced_analysis.py:390-407 | the candidates start with the three TRL-branch entries |
| EnhancedAnalysis.TrlRecommendationsClean | backend/src/enhanced_analysis.py:390-407 | each branch's three entries are distinct and longer than 10 characters |
| EnhancedAnalysis.RecommendationsSpec | backend/src/enhanced_analysis.py:460-465 | the returned list has no duplicates, only candidate entries longer than 10 characters, at most twelve |
| EnhancedAnalysis.RecommendationsOrder | backend/src/enhanced_analysis.py:460-465 | the returned entries come in order of first occurrence among the candidates |
| EnhancedAnalysis.RecommendationsStart | backend/src/enhanced_analysis.py:390-407 | the returned list starts with the three TRL-branch entries |
| Intelligence.GetKeyPlayers | backend/src/agents/intelligence.py:4-16 | the two results are the ranked tallies of the authorships' author names and of their institution names |
| Intelligence.CountWork | backend/src/agents/intelligence.py:8-13 | one work's authorships extend both tallies by their names |
| Intelligence.CountInstitutions | backend/src/agents/intelligence.py:11-13 | one authorship's institutions extend the institution tally |
| Intelligence.KeyPlayersSpec | backend/src/agents/intelligence.py:7-16 | each ranked name has as count its exact number of occurrences, every name is ranked once, counts never increase and add up to the authorships, respectively the (authorship, institution) pairs |
| Intelligence.RareKeys | backend/src/agents/intelligence.py:24 | a topic is underexplored iff it is a key with count below five |
| Intelligence.RareKeysDistinct | backend/src/agents/intelligence.py:24 | underexplored topics are listed once each |
| Intelligence.FindEmergingTrends | backend/src/agents/intelligence.py:18-25 | the counter is the tally of topic names and the underexplored list its keys with count below five |
| Intelligence.TrendsSpec | backend/src/agents/intelligence.py:19-25 | each topic count is its exact number of occurrences; underexplored are exactly the topics occurring fewer than five times |
| Intelligence.MatchToPatents | backend/src/agents/intelligence.py:27-35 | the matches are `Matches(data, patents)` |
| Intelligence.MatchAuthor | backend/src/agents/intelligence.py:32-34 | one author against every patent adds the pairs of the patents naming them, in order |
| Intelligence.AuthorMatchesSpec | backend/src/agents/intelligence.py:32-34 | a pair comes from one author iff some patent lists them as inventor |
| Intelligence.AuthorshipMatchesSpec | backend/src/agents/intelligence.py:30-34 | a pair comes from a work iff one of its authorships names an inventor of that patent |
| Intelligence.MatchesSpec | backend/src/agents/intelligence.py:28-35 | a pair is emitted iff some authorship of the work with that title names an inventor of the patent with that title |
| Intelligence.Matches | backend/src/agents/intelligence.py:27-35 | the pairs `match_to_patents` emits; stated by `MatchesSpec` |
| Intelligence.DuplicatesKept | backend/src/agents/intelligence.py:33-34 | two authorships of the same inventor give the pair twice |
| Intelligence.ClassifiedCount | backend/src/agents/intelligence.py:43 | the count is at most the number of patents and zero iff none is classified under the topic |
| Intelligence.PrioritizeOpportunities | backend/src/agents/intelligence.py:37-46 | the result is `Opportunities(data, patents)`; the topic counts are not read |
| Intelligence.WorkOpportunities | backend/src/agents/intelligence.py:40-45 | one work's topics add its opportunities, in order |
| Intelligence.TopicOpportunitiesSpec | backend/src/agents/intelligence.py:42-45 | a triple comes from a work iff one of its topics is classified in fewer than two patents and the work has over 100 citations |
| Intelligence.OpportunitiesSpec | backend/src/agents/intelligence.py:38-46 | a triple is emitted iff a work with that title lists the topic, fewer than two patents are classified under it, and the work has more than 100 citations, which are reported |
| Intelligence.Opportunities | backend/src/agents/intelligence.py:37-46 | the triples `prioritize_opportunities` emits; stated by `OpportunitiesSpec` |
| Aggregation.RankResults | backend/src/agents/aggregation.py:1-2 | a permutation of the rows in non-increasing order of the key, missing counting as 0, equal keys in original order |
| Aggregation.MissingRanksLast | backend/src/agents/aggregation.py:2 | a row with a positive key is ranked ahead of every row lacking it |
| Aggregation.ExtractContributors | backend/src/agents/aggregation.py:4-9 | the result is the ranked tally of all contributor entries |
| Aggregation.ContributorsSpec | backend/src/agents/aggregation.py:4-9 | each contributor listed once with its exact number of entries, every one listed, counts non-increasing and summing to the number of entries |
| Licensing.FlagLicensingOpportunities | backend/src/agents/licensing.py:1-6 | the result is the input filtered to the results the focal group does not own |
| Licensing.FlaggedSpec | backend/src/agents/licensing.py:1-6 | a subsequence of the input, no longer; a result is kept iff the focal group does not own it, so results without owners are kept and dropped ones are owned |
| Licensing.FlagIdempotent | backend/src/agents/licensing.py:3-5 | flagging twice is flagging once |
| LicensingOpportunities.ClassifyEntityType | backend/src/agents/licensing_opportunities.py:142-151 | the answer is one of university, company, research_institute |
| LicensingOpportunities.ClassifySpec | backend/src/agents/licensing_opportunities.py:144-151 | university iff the lower-cased name contains a university term; company iff none of those and a company term; research institute iff none of the eight |
| LicensingOpportunities.ClassifyIgnoresCase | backend/src/agents/licensing_opportunities.py:144 | names equal up to letter case are classified alike |
| LicensingOpportunities.UniversityCheckWins | backend/src/agents/licensing_opportunities.py:146-149 | a name containing both "institute" and "inc" is a university |
| LicensingOpportunities.PrincetonIsCompany | backend/src/agents/licensing_opportunities.py:148-149 | "Princeton" contains "inc" and is a company |
| LicensingOpportunities.FindPotentialLicensees | backend/src/agents/licensing_opportunities.py:50-86 | the result is `Licensees` of the inputs |
| LicensingOpportunities.AppendLicensees | backend/src/agents/licensing_opportunities.py:63-84 | one patent's citing patents add their qualifying licensees, in order |
| LicensingOpportunities.CitingLicenseesSpec | backend/src/agents/licensing_opportunities.py:63-84 | a licensee comes from a patent iff built from one of its citing patents that qualifies |
| LicensingOpportunities.LicenseesSpec | backend/src/agents/licensing_opportunities.py:60-86 | a licensee iff built from a citing patent with a non-empty assignee other than the focal group and relevance at least the threshold |
| LicensingOpportunities.Licensees | backend/src/agents/licensing_opportunities.py:50-86 | the licensees `_find_potential_licensees` builds; stated by `LicenseesSpec` and `LicenseeShape` |
| LicensingOpportunities.LicenseeShape | backend/src/agents/licensing_opportunities.py:72-83 | every licensee is a named outside owner, licensing out, at relevance at least 0.7 |
| LicensingOpportunities.ThresholdInclusive | backend/src/agents/licensing_opportunities.py:71 | relevance exactly 0.7 qualifies |
| LicensingOpportunities.CompanyGaps | backend/src/agents/licensing_opportunities.py:108-121 | one gap opportunity per company, in order |
| LicensingOpportunities.IdentifyTechnologyGaps | backend/src/agents/licensing_opportunities.py:88-123 | the result is `Gaps` of the publications |
| LicensingOpportunities.AppendCompanyGaps | backend/src/agents/licensing_opportunities.py:108-121 | one publication adds one opportunity per related company |
| LicensingOpportunities.GapsSpec | backend/src/agents/licensing_opportunities.py:98-123 | a gap opportunity iff built from a publication scoring strictly above 0.8 and one of the companies found for its topics |
| LicensingOpportunities.Gaps | backend/src/agents/licensing_opportunities.py:88-123 | the gap opportunities `_identify_technology_gaps` builds; stated by `GapsSpec` |
| LicensingOpportunities.ScoreThresholdStrict | backend/src/agents/licensing_opportunities.py:102 | a publication scoring exactly 0.8 contributes nothing |
| LicensingOpportunities.IdentifyLicensingOpportunities | backend/src/agents/licensing_opportunities.py:23-48 | the result is licensees then gaps, sorted by relevance |
| LicensingOpportunities.RankingSpec | backend/src/agents/licensing_opportunities.py:46-48 | a permutation of licensees followed by gaps, in non-increasing relevance, equal relevance in concatenation order |
| LicensingOpportunities.Ranking | backend/src/agents/licensing_opportunities.py:23-48 | the ranked list `identify_licensing_opportunities` returns; stated by `RankingSpec` |
| LicensingOpportunities.CitingPatentsStub | backend/src/agents/licensing_opportunities.py:125-129 | the stub finds no citing patents |
| LicensingOpportunities.LicensingRelevanceStub | backend/src/agents/licensing_opportunities.py:131-140 | the stub relevance is at least the 0.7 licensee threshold, so every citing patent with an outside owner would qualify |
| LicensingOpportunities.LicensingValueStub | backend/src/agents/licensing_opportunities.py:153-156 | the stub licensing value, a fixed "Medium ($100K-$1M)" |
| LicensingOpportunities.CommercializationStub | backend/src/agents/licensing_opportunities.py:158-165 | the stub assessment scores above the 0.8 gap threshold and lists two gaps |
| LicensingOpportunities.CompaniesStub | backend/src/agents/licensing_opportunities.py:167-175 | the stub finds exactly one company, TechCorp Inc. |
| LicensingOpportunities.StubLicenseesNone | backend/src/agents/licensing_opportunities.py:125-129 | with the stubs there are no licensees |
| LicensingOpportunities.StubGaps | backend/src/agents/licensing_opportunities.py:158-175 | with the stubs, one gap opportunity per publication, all alike |
| LicensingOpportunities.StubbedRanking | backend/src/agents/licensing_opportunities.py:158-175 | with the stubs, one opportunity per publication, licensing out to TechCorp Inc. at 0.85 |
| OpenAlex.MinPos | backend/src/routes/openalex.py:16 | `min` of a non-empty list is a member no larger than any |
| OpenAlex.ParseAbstract | backend/src/routes/openalex.py:12-17 | a missing or empty index yields "No abstract available" |
| OpenAlex.SortedWordsSpec | backend/src/routes/openalex.py:16 | the sorted words are the index's keys, each exactly once |
| OpenAlex.SortedWords | backend/src/routes/openalex.py:16 | the keys sorted by smallest position; stated by `SortedWordsSpec`, `SortedWordsAscending` and `SortedWordsStable` |
| OpenAlex.SortedWordsAscending | backend/src/routes/openalex.py:16 | words come in ascending order of smallest position |
| OpenAlex.SortedWordsStable | backend/src/routes/openalex.py:16 | words sharing a smallest position keep their dictionary order |
| OpenAlex.ParseAbstractWords | backend/src/routes/openalex.py:16-17 | when no word contains a space, splitting the text at spaces gives back the sorted words, so it names every key exactly once |
| OpenAlex.SingleWord | backend/src/routes/openalex.py:16-17 | a one-word index gives that word |
| OpenAlex.TwoWords | backend/src/routes/openalex.py:16-17 | two words come out by smallest position whatever their dictionary order, separated by one space |

## Left out

- **Concurrency and timing.** The worker thread, `asyncio.run`, `asyncio.gather`, `time.sleep`, `asyncio.sleep(1)` between batches and `join(timeout=10)` are not modelled. A cycle runs its batches sequentially, in batch order. Each run touches only its own alert and a fresh notification.
- **Exceptions and logging.**
  - A matcher exception is the `Failed` outcome.
  - Exceptions from the due query or from the service's dict operations would need a failing dict. Python's dict operations raise nothing here, so those absorbing `except` branches have no model.
  - Log messages are not modelled.
- The semantic matcher, `datetime.now()` and `uuid4()` are parameters or a chosen fresh id. See "Conventions".
- `to_dict` and the ISO-8601 serialisation are a transport format.
- **HTTP routes and request models.** The routes are not modelled; only their bounds appear, as preconditions.
- **Floating-point numbers.**
  - Scores and thresholds are exact reals.
  - `round(..., 3)` in `analyze_similarity_scores` is not applied.
  - `Spread` divides by 10 exactly.
- **Opaque inputs.** The formatted text of a similarity-context entry (`str.title()`, `:.3f`) is an opaque function parameter (`entry`). Only the numbering, the limit of eight and the newline join are modelled.
- **Generated recommendations.** The generated-text branch of `generate_smart_recommendations` (the prompt, the model call and the line extraction) is replaced by the list of lines it would add. The outer `except` fallback list is not modelled, because nothing in the modelled path raises.
- **Intelligence.** `visualize_collaborations` (plotting) and `enhanced_research_analysis`, `generate_ai_insights` and `generate_executive_summary` (model calls, float scoring) are not modelled.
- **Float-weighted helpers of `src/utils.py`.** `citation_velocity`, `temporal_gap`, `commercial_ratio` and `family_size_investment` are not modelled.
- **Characters.** `int()` of a date prefix accepts ASCII digits only; Python also accepts other Unicode digits. Single underscores between digits are accepted, as `int()` accepts them. Case mapping is ASCII only.
- **Dict access.** Records are maps from field names to present values. A field holding `None` and a missing `"author"`/`"display_name"` key (a `KeyError` in the source) are not modelled.
- **Mapper internals.** The `LicensingOpportunityMapper` collaborators are parameters, with their stubs modelled. The `domain`, `patents` and `topic_counts` arguments that the code accepts and never reads are kept and ignored.
- **Duplicate copies.** The copies of the agents and of the OpenAlex route under `src/` duplicate the backend files and are not modelled separately. `get_work` is HTTP I/O.
- **Classifier example.** No lemma evaluates a concrete mixed-case name such as "X Institute Inc"; `UniversityCheckWins` and `ClassifyIgnoresCase` state the general facts.
- OpenAlex.ParseAbstract: its own contract states only the placeholder case. The text in the non-empty case is characterised by `SortedWordsSpec`, `SortedWordsAscending`, `SortedWordsStable` and `ParseAbstractWords`. An index with an empty position list is excluded by the precondition, because `min` raises on it.
