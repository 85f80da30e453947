/**
 * The in-memory alert service: a dict of alerts and a dict of notifications, both keyed by id and
 * iterated in insertion order. Every operation is first a function on a `Store` value; the class
 * `AlertService` keeps the same four pieces of state in fields and each of its methods is proved to
 * leave exactly the state the function describes.
 */
module AlertServices {
  import opened Wrappers
  import opened Seqs
  import opened Sorting
  import opened AlertTypes

  /** The two dicts, each as a map plus its keys in insertion order. */
  datatype Store = Store(
    alerts: map<string, PatentAlert>,
    alertOrder: seq<string>,
    notifications: map<string, AlertNotification>,
    notificationOrder: seq<string>)

  /**
   * What every operation keeps: each dict is keyed by its records' ids, its order lists each key
   * once, every alert has a scheduled next run, and every notification belongs to a stored alert
   * (alerts are only ever soft-deleted).
   */
  ghost predicate StoreValid(s: Store)
  {
    && Distinct(s.alertOrder)
    && (forall k :: k in s.alerts <==> k in s.alertOrder)
    && (forall k :: k in s.alerts ==> s.alerts[k].id == k && s.alerts[k].nextRun.Some?)
    && Distinct(s.notificationOrder)
    && (forall k :: k in s.notifications <==> k in s.notificationOrder)
    && (forall k :: k in s.notifications ==> s.notifications[k].id == k && s.notifications[k].alertId in s.alerts)
  }

  /** The alerts in dict order. */
  function AlertList(s: Store): seq<PatentAlert>
  {
    Values(s.alerts, s.alertOrder)
  }

  /** The notifications in dict order. */
  function NotificationList(s: Store): seq<AlertNotification>
  {
    Values(s.notifications, s.notificationOrder)
  }

  /** A length no id in `ids` reaches. */
  function Longest(ids: seq<string>): (n: nat)
    ensures forall i :: 0 <= i < |ids| ==> |ids[i]| <= n
  {
    if ids == [] then 0
    else
      var rest := Longest(ids[1..]);
      if |ids[0]| > rest then |ids[0]| else rest
  }

  /** A new identifier (`uuid4()`): one that is not among the ids in use. */
  function FreshId(used: seq<string>): (id: string)
    ensures id !in used
  {
    seq(Longest(used) + 1, _ => 'x')
  }

  /** `self.alerts[alert.id] = alert`: an existing key keeps its place, a new one goes last. */
  function Put(s: Store, a: PatentAlert): Store
  {
    s.(alerts := s.alerts[a.id := a],
       alertOrder := if a.id in s.alerts then s.alertOrder else s.alertOrder + [a.id])
  }

  /** `create_alert`: a new active alert whose first run is one period from now. */
  function Create(s: Store, userId: string, title: string, abstractText: string, threshold: real,
                  lookback: int, frequency: AlertFrequency, now: int): (Store, PatentAlert)
  {
    var a := PatentAlert(FreshId(s.alertOrder), userId, title, abstractText, threshold, lookback, frequency,
                         Active, now, now, None, Some(CalculateNextRun(frequency, now)), 0);
    (Put(s, a), a)
  }

  /** `get_alert`: the stored alert, if it exists, belongs to `userId` and is not deleted. */
  function Lookup(s: Store, id: string, userId: string): (r: Option<PatentAlert>)
  {
    if id in s.alerts && s.alerts[id].userId == userId && s.alerts[id].status != Deleted
    then Some(s.alerts[id]) else None
  }

  /** An alert `get_alerts` lists for `userId`. */
  predicate Listed(a: PatentAlert, userId: string)
  {
    a.userId == userId && a.status != Deleted
  }

  /** The filter of `get_alerts`. */
  function ListedBy(userId: string): PatentAlert -> bool
  {
    (a: PatentAlert) => Listed(a, userId)
  }

  function CreatedKey(a: PatentAlert): real
  {
    a.createdAt as real
  }

  /** `get_alerts`: the user's alerts that are not deleted, newest first, ties in dict order. */
  function ListAlerts(s: Store, userId: string): seq<PatentAlert>
  {
    SortDesc(Filter(AlertList(s), ListedBy(userId)), CreatedKey)
  }

  /** The alert after `update_alert`: the supplied fields replaced, a new frequency rescheduled from now. */
  function Revised(a: PatentAlert, title: Option<string>, abstractText: Option<string>, threshold: Option<real>,
                   lookback: Option<int>, frequency: Option<AlertFrequency>, status: Option<AlertStatus>,
                   now: int): PatentAlert
  {
    a.(researchTitle := title.GetOr(a.researchTitle),
       researchAbstract := abstractText.GetOr(a.researchAbstract),
       similarityThreshold := threshold.GetOr(a.similarityThreshold),
       lookbackDays := lookback.GetOr(a.lookbackDays),
       frequency := frequency.GetOr(a.frequency),
       nextRun := if frequency.Some? then Some(CalculateNextRun(frequency.value, now)) else a.nextRun,
       status := status.GetOr(a.status),
       updatedAt := now)
  }

  /** `update_alert`: nothing happens unless `get_alert` finds the alert. */
  function Update(s: Store, id: string, userId: string, title: Option<string>, abstractText: Option<string>,
                  threshold: Option<real>, lookback: Option<int>, frequency: Option<AlertFrequency>,
                  status: Option<AlertStatus>, now: int): (Store, Option<PatentAlert>)
  {
    match Lookup(s, id, userId)
    case None => (s, None)
    case Some(a) =>
      var a' := Revised(a, title, abstractText, threshold, lookback, frequency, status, now);
      (s.(alerts := s.alerts[id := a']), Some(a'))
  }

  /** `delete_alert`: a soft delete, which keeps the record with status deleted. */
  function SoftDelete(s: Store, id: string, userId: string, now: int): (Store, bool)
  {
    match Lookup(s, id, userId)
    case None => (s, false)
    case Some(a) => (s.(alerts := s.alerts[id := a.(status := Deleted, updatedAt := now)]), true)
  }

  /** The alert after a run at `now`: run now, next run one period later, one more notification if it found something. */
  function Advanced(a: PatentAlert, found: bool, now: int): PatentAlert
  {
    a.(lastRun := Some(now),
       nextRun := Some(CalculateNextRun(a.frequency, now)),
       updatedAt := now,
       notificationCount := if found then a.notificationCount + 1 else a.notificationCount)
  }

  /**
   * `process_alert` given the matcher's outcome: an alert that is not active is left alone; an active
   * one is rescheduled whatever the outcome, and a non-empty result list also becomes a notification.
   */
  function Process(s: Store, a: PatentAlert, outcome: MatcherOutcome, now: int): (Store, Option<AlertNotification>)
  {
    if a.status != Active then (s, None)
    else if Found(outcome) then
      var n := AlertNotification(FreshId(s.notificationOrder), a.id, outcome.results, now, false);
      var s' := Put(s, Advanced(a, true, now));
      (s'.(notifications := s.notifications[n.id := n], notificationOrder := s.notificationOrder + [n.id]), Some(n))
    else
      (Put(s, Advanced(a, false, now)), None)
  }

  /** The ids of the alerts of `userId`, whatever their status. */
  function OwnedAlertIds(s: Store, userId: string): set<string>
  {
    set k | k in s.alerts && s.alerts[k].userId == userId :: s.alerts[k].id
  }

  function NotifiedKey(n: AlertNotification): real
  {
    n.createdAt as real
  }

  /** The notifications of the alerts of `userId`, most recent first, ties in dict order. */
  /** The filter of `get_notifications`: notifications of the given alerts. */
  function InOwned(owned: set<string>): AlertNotification -> bool
  {
    (n: AlertNotification) => n.alertId in owned
  }

  function OwnedNotifications(s: Store, userId: string): seq<AlertNotification>
  {
    var owned := OwnedAlertIds(s, userId);
    SortDesc(Filter(NotificationList(s), InOwned(owned)), NotifiedKey)
  }

  /** `get_notifications`: the first `limit` of the user's notifications, as the slice `[:limit]` takes them. */
  function ListNotifications(s: Store, userId: string, limit: int): seq<AlertNotification>
  {
    SliceTo(OwnedNotifications(s, userId), limit)
  }

  /** `mark_notification_read`: only the owner of the notification's alert may mark it. */
  function MarkRead(s: Store, notificationId: string, userId: string): (Store, bool)
  {
    if notificationId !in s.notifications then (s, false)
    else
      var n := s.notifications[notificationId];
      if n.alertId !in s.alerts || s.alerts[n.alertId].userId != userId then (s, false)
      else (s.(notifications := s.notifications[notificationId := n.(read := true)]), true)
  }

  /** Due at `now`: active, with a next run that is not later than `now`. */
  predicate IsDue(a: PatentAlert, now: int)
  {
    a.status == Active && a.nextRun.Some? && a.nextRun.value <= now
  }

  /** The filter of `get_alerts_due_for_processing`. */
  function DueAt(now: int): PatentAlert -> bool
  {
    (a: PatentAlert) => IsDue(a, now)
  }

  function Due(s: Store, now: int): seq<PatentAlert>
  {
    Filter(AlertList(s), DueAt(now))
  }

  /** No two alerts of a list share an id. */
  predicate IdsDistinct(alerts: seq<PatentAlert>)
  {
    forall i, j :: 0 <= i < j < |alerts| ==> alerts[i].id != alerts[j].id
  }

  // ---------------------------------------------------------------------------------------------
  // Facts about the store

  /** The alert list holds exactly the stored alerts, once each. */
  lemma AlertListMembers(s: Store)
    requires StoreValid(s)
    ensures forall a :: a in AlertList(s) <==> a.id in s.alerts && s.alerts[a.id] == a
    ensures Distinct(AlertList(s))
  {
    var v := AlertList(s);
    forall a ensures a in v <==> a.id in s.alerts && s.alerts[a.id] == a {
      if a in v {
        var i :| 0 <= i < |v| && v[i] == a;
        assert s.alerts[s.alertOrder[i]] == a;
      }
      if a.id in s.alerts && s.alerts[a.id] == a {
        var i :| 0 <= i < |s.alertOrder| && s.alertOrder[i] == a.id;
        assert v[i] == a;
      }
    }
    forall i, j | 0 <= i < j < |v| ensures v[i] != v[j] {
      assert v[i].id == s.alertOrder[i] && v[j].id == s.alertOrder[j];
    }
  }

  /** The notification list holds exactly the stored notifications, once each. */
  lemma NotificationListMembers(s: Store)
    requires StoreValid(s)
    ensures forall n :: n in NotificationList(s) <==> n.id in s.notifications && s.notifications[n.id] == n
    ensures Distinct(NotificationList(s))
  {
    var v := NotificationList(s);
    forall n ensures n in v <==> n.id in s.notifications && s.notifications[n.id] == n {
      if n in v {
        var i :| 0 <= i < |v| && v[i] == n;
        assert s.notifications[s.notificationOrder[i]] == n;
      }
      if n.id in s.notifications && s.notifications[n.id] == n {
        var i :| 0 <= i < |s.notificationOrder| && s.notificationOrder[i] == n.id;
        assert v[i] == n;
      }
    }
    forall i, j | 0 <= i < j < |v| ensures v[i] != v[j] {
      assert v[i].id == s.notificationOrder[i] && v[j].id == s.notificationOrder[j];
    }
  }

  /** Distinct stored alerts have distinct ids. */
  lemma StoredIdsDistinct(s: Store, r: seq<PatentAlert>)
    requires StoreValid(s) && Distinct(r)
    requires forall a :: a in r ==> a.id in s.alerts && s.alerts[a.id] == a
    ensures IdsDistinct(r)
  {
    forall i, j | 0 <= i < j < |r| ensures r[i].id != r[j].id {
      assert r[i] in r && r[j] in r;
    }
  }

  /** Writing an alert under its own id (with a next run set) keeps the store well formed. */
  lemma PutValid(s: Store, a: PatentAlert)
    requires StoreValid(s) && a.nextRun.Some?
    ensures StoreValid(Put(s, a))
    ensures Put(s, a).alerts == s.alerts[a.id := a]
    ensures Put(s, a).notifications == s.notifications && Put(s, a).notificationOrder == s.notificationOrder
  {
    var s' := Put(s, a);
    if a.id !in s.alerts {
      forall i, j | 0 <= i < j < |s'.alertOrder| ensures s'.alertOrder[i] != s'.alertOrder[j] {
        if j == |s.alertOrder| {
          assert s'.alertOrder[i] == s.alertOrder[i];
        }
      }
    }
  }

  /**
   * `create_alert`: the new alert has a fresh id, the given criteria, status active, no run yet,
   * no notifications, and a first run one period after its creation; it is the only change,
   * `get_alert` finds it, `get_alerts` lists it, and it comes due exactly when that period is over.
   */
  lemma CreateSpec(s: Store, userId: string, title: string, abstractText: string, threshold: real,
                   lookback: int, frequency: AlertFrequency, now: int, t: int)
    requires StoreValid(s)
    ensures var (s', a) := Create(s, userId, title, abstractText, threshold, lookback, frequency, now);
      && StoreValid(s')
      && a.id !in s.alerts
      && s'.alerts == s.alerts[a.id := a]
      && s'.alertOrder == s.alertOrder + [a.id]
      && s'.notifications == s.notifications && s'.notificationOrder == s.notificationOrder
      && a.userId == userId && a.researchTitle == title && a.researchAbstract == abstractText
      && a.similarityThreshold == threshold && a.lookbackDays == lookback && a.frequency == frequency
      && a.status == Active && a.createdAt == now && a.updatedAt == now
      && a.lastRun == None && a.notificationCount == 0
      && a.nextRun == Some(now + Period(frequency))
      && Lookup(s', a.id, userId) == Some(a)
      && a in ListAlerts(s', userId)
      && (a in Due(s', t) <==> t >= now + Period(frequency))
  {
    var (s', a) := Create(s, userId, title, abstractText, threshold, lookback, frequency, now);
    assert a == PatentAlert(FreshId(s.alertOrder), userId, title, abstractText, threshold, lookback, frequency,
                            Active, now, now, None, Some(now + Period(frequency)), 0);
    assert a.id !in s.alertOrder;
    PutValid(s, a);
    ListAlertsMembers(s', userId);
    DueSpec(s', t);
  }

  /** `get_alert` answers only the owner, and only for an alert that is not deleted. */
  lemma LookupSpec(s: Store, id: string, userId: string)
    ensures Lookup(s, id, userId).Some? <==> id in s.alerts && s.alerts[id].userId == userId && s.alerts[id].status != Deleted
    ensures Lookup(s, id, userId).Some? ==> Lookup(s, id, userId).value == s.alerts[id]
    ensures forall other :: other != userId ==> Lookup(s, id, userId) == None || Lookup(s, id, other) == None
  {
  }

  /**
   * `get_alerts`: exactly the stored alerts of the user that are not deleted, each once, newest first,
   * alerts created at the same time in dict order.
   */
  lemma ListAlertsSpec(s: Store, userId: string)
    requires StoreValid(s)
    ensures var r := ListAlerts(s, userId);
      && (forall a :: a in r <==> a.id in s.alerts && s.alerts[a.id] == a && Listed(a, userId))
      && IdsDistinct(r)
      && SortedDesc(r, CreatedKey)
      && (forall k :: WithKey(r, CreatedKey, k) == WithKey(Filter(AlertList(s), ListedBy(userId)), CreatedKey, k))
  {
    ListAlertsMembers(s, userId);
    SortDescCorrect(Filter(AlertList(s), ListedBy(userId)), CreatedKey);
  }

  lemma ListAlertsMembers(s: Store, userId: string)
    requires StoreValid(s)
    ensures var r := ListAlerts(s, userId);
      && (forall a :: a in r <==> a.id in s.alerts && s.alerts[a.id] == a && Listed(a, userId))
      && IdsDistinct(r)
  {
    var f := Filter(AlertList(s), ListedBy(userId));
    var r := ListAlerts(s, userId);
    AlertListMembers(s);
    SortDescCorrect(f, CreatedKey);
    SortDescMembers(f, CreatedKey);
    assert forall a :: a in f <==> a in AlertList(s) && Listed(a, userId) by {
      forall a | a in AlertList(s) && Listed(a, userId) ensures a in f {
        var i :| 0 <= i < |AlertList(s)| && AlertList(s)[i] == a;
      }
      forall a | a in f ensures a in AlertList(s) && Listed(a, userId) {
        var i :| 0 <= i < |f| && f[i] == a;
      }
    }
    DistinctSub(AlertList(s), f);
    DistinctSub(f, r);
    StoredIdsDistinct(s, r);
  }

  /**
   * `update_alert`: an alert `get_alert` does not find is left alone and the answer is none;
   * otherwise each supplied field replaces the old one, the others stay, a new frequency
   * reschedules the next run one period from now, the update time is now, and nothing else changes.
   */
  lemma UpdateSpec(s: Store, id: string, userId: string, title: Option<string>, abstractText: Option<string>,
                   threshold: Option<real>, lookback: Option<int>, frequency: Option<AlertFrequency>,
                   status: Option<AlertStatus>, now: int)
    requires StoreValid(s)
    ensures var (s', r) := Update(s, id, userId, title, abstractText, threshold, lookback, frequency, status, now);
      && StoreValid(s')
      && (r.Some? <==> Lookup(s, id, userId).Some?)
      && (r.None? ==> s' == s)
      && (r.Some? ==>
           var a := s.alerts[id];
           && s'.alerts == s.alerts[id := r.value]
           && s'.alertOrder == s.alertOrder
           && s'.notifications == s.notifications && s'.notificationOrder == s.notificationOrder
           && r.value.id == id && r.value.userId == userId && r.value.createdAt == a.createdAt
           && r.value.lastRun == a.lastRun && r.value.notificationCount == a.notificationCount
           && r.value.researchTitle == (if title.Some? then title.value else a.researchTitle)
           && r.value.researchAbstract == (if abstractText.Some? then abstractText.value else a.researchAbstract)
           && r.value.similarityThreshold == (if threshold.Some? then threshold.value else a.similarityThreshold)
           && r.value.lookbackDays == (if lookback.Some? then lookback.value else a.lookbackDays)
           && r.value.frequency == (if frequency.Some? then frequency.value else a.frequency)
           && r.value.status == (if status.Some? then status.value else a.status)
           && r.value.nextRun == (if frequency.Some? then Some(now + Period(frequency.value)) else a.nextRun)
           && r.value.updatedAt == now)
  {
  }

  /** `update_alert` keeps the store well formed. */
  lemma UpdateValid(s: Store, id: string, userId: string, title: Option<string>, abstractText: Option<string>,
                    threshold: Option<real>, lookback: Option<int>, frequency: Option<AlertFrequency>,
                    status: Option<AlertStatus>, now: int)
    requires StoreValid(s)
    ensures StoreValid(Update(s, id, userId, title, abstractText, threshold, lookback, frequency, status, now).0)
  {
    UpdateSpec(s, id, userId, title, abstractText, threshold, lookback, frequency, status, now);
  }

  /** The field updates of a run of `process_alert`: last run and update time now, next run one period on. */
  method Reschedule(alert: PatentAlert, found: bool, now: int) returns (a: PatentAlert)
    ensures a == Advanced(alert, found, now)
  {
    a := alert.(lastRun := Some(now));
    a := a.(nextRun := Some(CalculateNextRun(a.frequency, now)));
    if found {
      a := a.(notificationCount := a.notificationCount + 1);
    }
    a := a.(updatedAt := now);
  }

  /** `process_alert` keeps the store well formed. */
  lemma ProcessValid(s: Store, a: PatentAlert, outcome: MatcherOutcome, now: int)
    requires StoreValid(s)
    ensures StoreValid(Process(s, a, outcome, now).0)
  {
    ProcessSpec(s, a, outcome, now);
  }

  /** The field-by-field replacement of `update_alert`. */
  method ReviseFields(a: PatentAlert, title: Option<string>, abstractText: Option<string>, threshold: Option<real>,
                      lookback: Option<int>, frequency: Option<AlertFrequency>, status: Option<AlertStatus>, now: int)
    returns (a': PatentAlert)
    ensures a' == Revised(a, title, abstractText, threshold, lookback, frequency, status, now)
  {
    a' := a;
    if title.Some? {
      a' := a'.(researchTitle := title.value);
    }
    if abstractText.Some? {
      a' := a'.(researchAbstract := abstractText.value);
    }
    if threshold.Some? {
      a' := a'.(similarityThreshold := threshold.value);
    }
    if lookback.Some? {
      a' := a'.(lookbackDays := lookback.value);
    }
    if frequency.Some? {
      a' := a'.(frequency := frequency.value, nextRun := Some(CalculateNextRun(frequency.value, now)));
    }
    if status.Some? {
      a' := a'.(status := status.value);
    }
    a' := a'.(updatedAt := now);
  }

  /** A paused alert is never due, whatever the time. */
  lemma PausedNeverDue(s: Store, id: string, userId: string, now: int, t: int)
    requires StoreValid(s)
    ensures var (s', r) := Update(s, id, userId, None, None, None, None, None, Some(Paused), now);
      r.Some? ==> forall a :: a in Due(s', t) ==> a.id != id
  {
  }

  /**
   * `delete_alert`: succeeds exactly when `get_alert` finds the alert; the record stays, marked
   * deleted, so that no user can fetch it any more, and a second delete fails.
   */
  lemma DeleteSpec(s: Store, id: string, userId: string, now: int, later: int)
    requires StoreValid(s)
    ensures var (s', ok) := SoftDelete(s, id, userId, now);
      && StoreValid(s')
      && (ok <==> Lookup(s, id, userId).Some?)
      && (!ok ==> s' == s)
      && (ok ==>
           && s'.alerts == s.alerts[id := s.alerts[id].(status := Deleted, updatedAt := now)]
           && s'.alertOrder == s.alertOrder
           && s'.notifications == s.notifications && s'.notificationOrder == s.notificationOrder
           && (forall u :: Lookup(s', id, u) == None)
           && SoftDelete(s', id, userId, later) == (s', false))
  {
  }

  /** A deleted alert is neither listed by `get_alerts` nor due. */
  lemma DeletedHidden(s: Store, id: string, userId: string, now: int, t: int)
    requires StoreValid(s)
    ensures var (s', ok) := SoftDelete(s, id, userId, now);
      ok ==> (forall a :: a in ListAlerts(s', userId) ==> a.id != id) && (forall a :: a in Due(s', t) ==> a.id != id)
  {
    var (s', ok) := SoftDelete(s, id, userId, now);
    DeleteSpec(s, id, userId, now, now);
    if ok {
      ListAlertsSpec(s', userId);
      DueSpec(s', t);
    }
  }

  /**
   * `process_alert`: an alert that is not active changes nothing and gives no notification. An
   * active one is written back with its last run at now and its next run one period later, whether
   * the matcher failed, found nothing or found something; a notification is made exactly when the
   * matcher returned results, it carries those results unread under a fresh id, and the alert's
   * notification count goes up by one.
   */
  lemma ProcessSpec(s: Store, a: PatentAlert, outcome: MatcherOutcome, now: int)
    requires StoreValid(s)
    ensures var (s', r) := Process(s, a, outcome, now);
      && StoreValid(s')
      && (a.status != Active ==> s' == s && r == None)
      && (a.status == Active ==>
           && s'.alerts == s.alerts[a.id := Advanced(a, Found(outcome), now)]
           && s'.alerts[a.id].lastRun == Some(now)
           && s'.alerts[a.id].nextRun == Some(now + Period(a.frequency))
           && s'.alerts[a.id].notificationCount == a.notificationCount + (if Found(outcome) then 1 else 0)
           && (r.Some? <==> Found(outcome))
           && (r.None? ==> s'.notifications == s.notifications && s'.notificationOrder == s.notificationOrder)
           && (r.Some? ==>
                && r.value.id !in s.notifications
                && r.value.alertId == a.id && r.value.alertResults == outcome.results
                && r.value.createdAt == now && !r.value.read
                && s'.notifications == s.notifications[r.value.id := r.value]
                && s'.notificationOrder == s.notificationOrder + [r.value.id]))
  {
    var (s', r) := Process(s, a, outcome, now);
    if a.status == Active {
      PutValid(s, Advanced(a, Found(outcome), now));
      if Found(outcome) {
        var p := Put(s, Advanced(a, true, now));
        var n := r.value;
        assert n.id !in s.notificationOrder;
        forall i, j | 0 <= i < j < |s'.notificationOrder| ensures s'.notificationOrder[i] != s'.notificationOrder[j] {
          if j == |s.notificationOrder| {
            assert s'.notificationOrder[i] == s.notificationOrder[i];
          }
        }
        assert forall k :: k in s'.notifications ==> s'.notifications[k].alertId in s'.alerts;
      }
    }
  }

  /** A run of an active alert writes back exactly that alert, advanced. */
  lemma ProcessAlerts(s: Store, a: PatentAlert, outcome: MatcherOutcome, now: int)
    requires a.status == Active
    ensures Process(s, a, outcome, now).0.alerts == s.alerts[a.id := Advanced(a, Found(outcome), now)]
  {
  }

  /** A run keeps every old notification and adds one exactly when an active alert found something. */
  lemma ProcessNotifications(s: Store, a: PatentAlert, outcome: MatcherOutcome, now: int)
    requires StoreValid(s)
    ensures var s' := Process(s, a, outcome, now).0;
      && (forall k :: k in s.notifications ==> k in s'.notifications && s'.notifications[k] == s.notifications[k])
      && |s'.notificationOrder| == |s.notificationOrder| + (if a.status == Active && Found(outcome) then 1 else 0)
  {
    var s' := Process(s, a, outcome, now).0;
    if a.status == Active && Found(outcome) {
      var id := FreshId(s.notificationOrder);
      assert id !in s.notifications;
      assert s'.notifications == s.notifications[id := s'.notifications[id]];
    }
  }

  /** A failed matcher call and an empty result list leave the same state and give the same answer. */
  lemma ProcessFailureIsEmpty(s: Store, a: PatentAlert, now: int)
    ensures Process(s, a, MatcherFailed, now) == Process(s, a, Matches([]), now)
  {
  }

  /** A run reschedules an active alert beyond the time it ran, so it is not due again at that time. */
  lemma ProcessReschedules(s: Store, a: PatentAlert, outcome: MatcherOutcome, now: int)
    requires StoreValid(s) && a.status == Active
    ensures var s' := Process(s, a, outcome, now).0;
      forall x :: x in Due(s', now) ==> x.id != a.id
  {
    var s' := Process(s, a, outcome, now).0;
    ProcessSpec(s, a, outcome, now);
    AlertListMembers(s');
  }

  /** The ids of a user's alerts are the keys of the alerts owned by the user. */
  lemma OwnedAlertIdsSpec(s: Store, userId: string)
    requires StoreValid(s)
    ensures forall id :: id in OwnedAlertIds(s, userId) <==> id in s.alerts && s.alerts[id].userId == userId
  {
  }

  /** Filtering a list keeps exactly its members that pass. */
  lemma FilterMembers<T>(v: seq<T>, p: T -> bool)
    ensures forall x :: x in Filter(v, p) <==> x in v && p(x)
  {
    var f := Filter(v, p);
    forall x | x in v && p(x) ensures x in f {
      var i :| 0 <= i < |v| && v[i] == x;
    }
    forall x | x in f ensures x in v && p(x) {
      var i :| 0 <= i < |f| && f[i] == x;
    }
  }

  lemma OwnedNotificationsMembers(s: Store, userId: string)
    requires StoreValid(s)
    ensures forall n :: n in OwnedNotifications(s, userId) <==>
      n.id in s.notifications && s.notifications[n.id] == n && s.alerts[n.alertId].userId == userId
  {
    var owned := OwnedAlertIds(s, userId);
    var p := InOwned(owned);
    var f := Filter(NotificationList(s), p);
    assert OwnedNotifications(s, userId) == SortDesc(f, NotifiedKey);
    OwnedAlertIdsSpec(s, userId);
    NotificationListMembers(s);
    FilterMembers(NotificationList(s), p);
    SortDescSame(f, NotifiedKey);
  }

  lemma OwnedNotificationsDistinct(s: Store, userId: string)
    requires StoreValid(s)
    ensures Distinct(OwnedNotifications(s, userId))
  {
    var owned := OwnedAlertIds(s, userId);
    var f := Filter(NotificationList(s), InOwned(owned));
    NotificationListMembers(s);
    DistinctSub(NotificationList(s), f);
    DistinctSub(f, OwnedNotifications(s, userId));
  }

  /**
   * The user's notifications: those of the user's alerts, deleted alerts included, each once, most
   * recent first.
   */
  lemma OwnedNotificationsSpec(s: Store, userId: string)
    requires StoreValid(s)
    ensures var o := OwnedNotifications(s, userId);
      && (forall n :: n in o <==> n.id in s.notifications && s.notifications[n.id] == n
                                  && s.alerts[n.alertId].userId == userId)
      && Distinct(o)
      && SortedDesc(o, NotifiedKey)
  {
    var owned := OwnedAlertIds(s, userId);
    OwnedNotificationsMembers(s, userId);
    OwnedNotificationsDistinct(s, userId);
    SortDescCorrect(Filter(NotificationList(s), InOwned(owned)), NotifiedKey);
  }

  /** A prefix of a sorted list without duplicates is sorted and has no duplicates. */
  lemma PrefixKeeps(o: seq<AlertNotification>, n: nat)
    requires n <= |o| && Distinct(o) && SortedDesc(o, NotifiedKey)
    ensures Distinct(o[..n]) && SortedDesc(o[..n], NotifiedKey)
  {
  }

  /**
   * `get_notifications`: notifications of the user's alerts, deleted alerts included, each once,
   * most recent first, at most `limit` of them when the limit is not negative; with a limit at
   * least their number, all of them.
   */
  lemma ListNotificationsSpec(s: Store, userId: string, limit: int)
    requires StoreValid(s)
    ensures var r := ListNotifications(s, userId, limit);
      && (forall n :: n in r ==> n.id in s.notifications && s.notifications[n.id] == n
                                 && s.alerts[n.alertId].userId == userId)
      && Distinct(r)
      && SortedDesc(r, NotifiedKey)
      && (limit >= 0 ==> |r| <= limit)
      && (limit >= |OwnedNotifications(s, userId)| ==>
            forall k :: k in s.notifications && s.alerts[s.notifications[k].alertId].userId == userId ==> s.notifications[k] in r)
  {
    ListNotificationsSound(s, userId, limit);
    if limit >= |OwnedNotifications(s, userId)| {
      ListNotificationsComplete(s, userId, limit);
    }
  }

  lemma ListNotificationsSound(s: Store, userId: string, limit: int)
    requires StoreValid(s)
    ensures var r := ListNotifications(s, userId, limit);
      && (forall n :: n in r ==> n.id in s.notifications && s.notifications[n.id] == n
                                 && s.alerts[n.alertId].userId == userId)
      && Distinct(r)
      && SortedDesc(r, NotifiedKey)
      && (limit >= 0 ==> |r| <= limit)
  {
    var o := OwnedNotifications(s, userId);
    var r := ListNotifications(s, userId, limit);
    OwnedNotificationsSpec(s, userId);
    assert r == o[..|r|];
    PrefixKeeps(o, |r|);
    assert forall n :: n in r ==> n in o;
  }

  lemma ListNotificationsComplete(s: Store, userId: string, limit: int)
    requires StoreValid(s) && limit >= |OwnedNotifications(s, userId)|
    ensures forall k :: k in s.notifications && s.alerts[s.notifications[k].alertId].userId == userId ==>
      s.notifications[k] in ListNotifications(s, userId, limit)
  {
    var o := OwnedNotifications(s, userId);
    var r := ListNotifications(s, userId, limit);
    OwnedNotificationsSpec(s, userId);
    assert r == o;
    forall k | k in s.notifications && s.alerts[s.notifications[k].alertId].userId == userId
      ensures s.notifications[k] in r
    {
      assert s.notifications[k].id == k;
    }
  }

  /**
   * `mark_notification_read`: succeeds exactly when the notification exists and its alert belongs to
   * the user; then only its read flag changes, otherwise nothing does; marking twice is marking once.
   */
  lemma MarkReadSpec(s: Store, notificationId: string, userId: string)
    requires StoreValid(s)
    ensures var (s', ok) := MarkRead(s, notificationId, userId);
      && StoreValid(s')
      && (ok <==> notificationId in s.notifications
                  && s.alerts[s.notifications[notificationId].alertId].userId == userId)
      && (!ok ==> s' == s)
      && (ok ==> s'.notifications == s.notifications[notificationId := s.notifications[notificationId].(read := true)]
                 && s'.alerts == s.alerts && s'.alertOrder == s.alertOrder && s'.notificationOrder == s.notificationOrder)
      && MarkRead(s', notificationId, userId) == (s', ok)
  {
    var (s', ok) := MarkRead(s, notificationId, userId);
    if ok {
      assert s'.notifications[notificationId := s'.notifications[notificationId].(read := true)] == s'.notifications;
    }
  }

  /**
   * `get_alerts_due_for_processing`: exactly the stored alerts that are active and whose next run
   * has come, in dict order, each once.
   */
  lemma DueSpec(s: Store, now: int)
    requires StoreValid(s)
    ensures var r := Due(s, now);
      && (forall a :: a in r <==> a.id in s.alerts && s.alerts[a.id] == a && IsDue(a, now))
      && IdsDistinct(r)
  {
    var v := AlertList(s);
    var r := Due(s, now);
    AlertListMembers(s);
    forall a | a in v && IsDue(a, now) ensures a in r {
      var i :| 0 <= i < |v| && v[i] == a;
    }
    forall a | a in r ensures a in v && IsDue(a, now) {
      var i :| 0 <= i < |r| && r[i] == a;
    }
    DistinctSub(v, r);
    StoredIdsDistinct(s, r);
  }

  // ---------------------------------------------------------------------------------------------
  // The service object

  /** `create_alert`'s defaults. */
  const DEFAULT_THRESHOLD: real := 0.75
  const DEFAULT_LOOKBACK_DAYS: int := 30
  const DEFAULT_FREQUENCY: AlertFrequency := Weekly
  /** `get_notifications`' default limit. */
  const DEFAULT_NOTIFICATION_LIMIT: int := 50

  /**
   * The bounds the HTTP layer checks on a create request before it calls the service: a title of 1
   * to 500 characters, an abstract of 10 to 5000, a threshold between 0 and 1, a lookback of 1 to
   * 365 days.
   */
  predicate CreateRequestValid(title: string, abstractText: string, threshold: real, lookback: int)
  {
    1 <= |title| <= 500 && 10 <= |abstractText| <= 5000 && 0.0 <= threshold <= 1.0 && 1 <= lookback <= 365
  }

  /** The same bounds on the fields an update request supplies; a status may only be active or paused. */
  predicate UpdateRequestValid(title: Option<string>, abstractText: Option<string>, threshold: Option<real>,
                               lookback: Option<int>, status: Option<AlertStatus>)
  {
    && (title.Some? ==> 1 <= |title.value| <= 500)
    && (abstractText.Some? ==> 10 <= |abstractText.value| <= 5000)
    && (threshold.Some? ==> 0.0 <= threshold.value <= 1.0)
    && (lookback.Some? ==> 1 <= lookback.value <= 365)
    && (status.Some? ==> status.value != Deleted)
  }

  /**
   * `AlertService`: the two dicts and their insertion orders, changed in place. The external matcher
   * and the clock are passed to the operations that use them.
   */
  class AlertService {
    var alerts: map<string, PatentAlert>
    var alertOrder: seq<string>
    var notifications: map<string, AlertNotification>
    var notificationOrder: seq<string>

    function State(): Store
      reads this
    {
      Store(alerts, alertOrder, notifications, notificationOrder)
    }

    ghost predicate Valid()
      reads this
    {
      StoreValid(State())
    }

    /** A service with no alerts and no notifications. */
    constructor ()
      ensures Valid()
      ensures State() == Store(map[], [], map[], [])
    {
      alerts := map[];
      alertOrder := [];
      notifications := map[];
      notificationOrder := [];
    }

    method CreateAlert(now: int, userId: string, title: string, abstractText: string,
                       threshold: real := DEFAULT_THRESHOLD, lookback: int := DEFAULT_LOOKBACK_DAYS,
                       frequency: AlertFrequency := DEFAULT_FREQUENCY)
      returns (alert: PatentAlert)
      requires Valid()
      requires CreateRequestValid(title, abstractText, threshold, lookback)
      modifies this
      ensures Valid()
      ensures (State(), alert) == Create(old(State()), userId, title, abstractText, threshold, lookback, frequency, now)
    {
      var id := FreshId(alertOrder);
      alert := PatentAlert(id, userId, title, abstractText, threshold, lookback, frequency,
                           Active, now, now, None, Some(CalculateNextRun(frequency, now)), 0);
      PutValid(State(), alert);
      alerts := alerts[id := alert];
      alertOrder := alertOrder + [id];
    }

    method GetAlerts(userId: string) returns (r: seq<PatentAlert>)
      ensures r == ListAlerts(State(), userId)
    {
      r := SortDesc(Filter(Values(alerts, alertOrder), ListedBy(userId)), CreatedKey);
    }

    method GetAlert(id: string, userId: string) returns (r: Option<PatentAlert>)
      ensures r == Lookup(State(), id, userId)
    {
      if id in alerts && alerts[id].userId == userId && alerts[id].status != Deleted {
        r := Some(alerts[id]);
      } else {
        r := None;
      }
    }

    method UpdateAlert(id: string, userId: string, title: Option<string>, abstractText: Option<string>,
                       threshold: Option<real>, lookback: Option<int>, frequency: Option<AlertFrequency>,
                       status: Option<AlertStatus>, now: int)
      returns (r: Option<PatentAlert>)
      requires Valid()
      requires UpdateRequestValid(title, abstractText, threshold, lookback, status)
      modifies this
      ensures Valid()
      ensures (State(), r) == Update(old(State()), id, userId, title, abstractText, threshold, lookback, frequency, status, now)
    {
      UpdateValid(State(), id, userId, title, abstractText, threshold, lookback, frequency, status, now);
      var found := GetAlert(id, userId);
      if found.None? {
        return None;
      }
      var a := ReviseFields(found.value, title, abstractText, threshold, lookback, frequency, status, now);
      alerts := alerts[id := a];
      r := Some(a);
    }

    method DeleteAlert(id: string, userId: string, now: int) returns (ok: bool)
      requires Valid()
      modifies this
      ensures Valid()
      ensures (State(), ok) == SoftDelete(old(State()), id, userId, now)
    {
      DeleteSpec(State(), id, userId, now, now);
      var found := GetAlert(id, userId);
      if found.None? {
        return false;
      }
      alerts := alerts[id := found.value.(status := Deleted, updatedAt := now)];
      ok := true;
    }

    /** One run of `alert` at `now`, asking `matcher` (not called for an alert that is not active). */
    method ProcessAlert(alert: PatentAlert, matcher: Matcher, now: int) returns (r: Option<AlertNotification>)
      requires Valid()
      modifies this
      ensures Valid()
      ensures (State(), r) == Process(old(State()), alert, Query(matcher, alert), now)
    {
      if alert.status != Active {
        return None;
      }
      ghost var s0 := State();
      ProcessValid(s0, alert, Query(matcher, alert), now);
      var outcome := Query(matcher, alert);
      if outcome.Matches? && outcome.results != [] {
        var notificationId := FreshId(notificationOrder);
        var notification := AlertNotification(notificationId, alert.id, outcome.results, now, false);
        notifications := notifications[notificationId := notification];
        notificationOrder := notificationOrder + [notificationId];
        var a := Reschedule(alert, true, now);
        StoreAlert(a);
        r := Some(notification);
      } else {
        // No results, or the matcher failed: the alert is rescheduled all the same.
        var a := Reschedule(alert, false, now);
        StoreAlert(a);
        r := None;
      }
    }

    /** `self.alerts[alert.id] = alert`. */
    method StoreAlert(a: PatentAlert)
      modifies this
      ensures State() == Put(old(State()), a)
    {
      if a.id !in alerts {
        alertOrder := alertOrder + [a.id];
      }
      alerts := alerts[a.id := a];
    }

    method GetNotifications(userId: string, limit: int := DEFAULT_NOTIFICATION_LIMIT) returns (r: seq<AlertNotification>)
      ensures r == ListNotifications(State(), userId, limit)
    {
      var owned := set k | k in alerts && alerts[k].userId == userId :: alerts[k].id;
      var mine := Filter(Values(notifications, notificationOrder), InOwned(owned));
      r := SliceTo(SortDesc(mine, NotifiedKey), limit);
    }

    method MarkNotificationRead(notificationId: string, userId: string) returns (ok: bool)
      requires Valid()
      modifies this
      ensures Valid()
      ensures (State(), ok) == MarkRead(old(State()), notificationId, userId)
    {
      MarkReadSpec(State(), notificationId, userId);
      if notificationId !in notifications {
        return false;
      }
      var n := notifications[notificationId];
      if n.alertId !in alerts || alerts[n.alertId].userId != userId {
        return false;
      }
      notifications := notifications[notificationId := n.(read := true)];
      ok := true;
    }

    method GetAlertsDueForProcessing(now: int) returns (r: seq<PatentAlert>)
      ensures r == Due(State(), now)
    {
      r := Filter(Values(alerts, alertOrder), DueAt(now));
    }
  }
}
