/**
 * The background scheduler of the alert service: every check interval it asks the service for the
 * alerts that are due and runs them, five at a time. One cycle is specified by `Cycle`, a function
 * of the service state, the matcher and the time of the cycle.
 */
module AlertSchedulers {
  import opened Wrappers
  import opened Seqs
  import opened AlertTypes
  import opened AlertServices

  /** Alerts run per batch. */
  const BATCH_SIZE: nat := 5
  /** Seconds between two cycles, unless the scheduler is built with another interval. */
  const DEFAULT_CHECK_INTERVAL: int := 300

  /** `[s[i:i + size] for i in range(0, len(s), size)]`: consecutive slices of `size`, the last one possibly shorter. */
  function Batches<T>(s: seq<T>, size: nat): seq<seq<T>>
    requires size > 0
    decreases |s|
  {
    if s == [] then []
    else
      var k := if |s| < size then |s| else size;
      [s[..k]] + Batches(s[k..], size)
  }

  /** The batches, put back together, are the input: every element once, in order. */
  lemma {:induction false} BatchesFlatten<T>(s: seq<T>, size: nat)
    requires size > 0
    ensures Flatten(Batches(s, size)) == s
    decreases |s|
  {
    if s != [] {
      var k := if |s| < size then |s| else size;
      BatchesFlatten(s[k..], size);
      assert s == s[..k] + s[k..];
    }
  }

  /**
   * There are `ceil(|s| / size)` batches (just enough batches of `size` to hold `s`), none of them
   * empty and none longer than `size`.
   */
  lemma {:induction false} BatchesShape<T>(s: seq<T>, size: nat)
    requires size > 0
    ensures (|Batches(s, size)| - 1) * size < |s| <= |Batches(s, size)| * size || (s == [] && Batches(s, size) == [])
    ensures forall i :: 0 <= i < |Batches(s, size)| ==> 0 < |Batches(s, size)[i]| <= size
    decreases |s|
  {
    if s != [] {
      var k := if |s| < size then |s| else size;
      var b := Batches(s, size);
      var rest := Batches(s[k..], size);
      BatchesShape(s[k..], size);
      assert b == [s[..k]] + rest;
      assert |b| * size == size + |rest| * size;
      assert (|b| - 1) * size == |rest| * size;
      forall i | 0 <= i < |b| ensures 0 < |b[i]| <= size {
        if i > 0 {
          assert b[i] == rest[i - 1];
        }
      }
    }
  }

  /** Batch `i` is the slice `s[i * size:(i + 1) * size]`. */
  lemma {:induction false} BatchesSlices<T>(s: seq<T>, size: nat)
    requires size > 0
    ensures forall i :: 0 <= i < |Batches(s, size)| ==>
      i * size < |s| &&
      Batches(s, size)[i] == s[i * size..if (i + 1) * size < |s| then (i + 1) * size else |s|]
    decreases |s|
  {
    if s != [] {
      var k := if |s| < size then |s| else size;
      var b := Batches(s, size);
      var rest := Batches(s[k..], size);
      BatchesSlices(s[k..], size);
      forall i | 0 <= i < |b|
        ensures i * size < |s| && b[i] == s[i * size..if (i + 1) * size < |s| then (i + 1) * size else |s|]
      {
        if i > 0 {
          assert b[i] == rest[i - 1];
          LaterBatch(s, size, i - 1, rest[i - 1]);
        }
      }
    }
  }

  /** Batch `j` of `s[size..]` is batch `j + 1` of `s`, as a slice of `s`. */
  lemma LaterBatch<T>(s: seq<T>, size: nat, j: nat, batch: seq<T>)
    requires 0 < size < |s|
    requires var t := s[size..]; j * size < |t| && batch == t[j * size..if (j + 1) * size < |t| then (j + 1) * size else |t|]
    ensures (j + 1) * size < |s|
    ensures batch == s[(j + 1) * size..if (j + 2) * size < |s| then (j + 2) * size else |s|]
  {
    MulSucc(j, size);
    MulSucc(j + 1, size);
  }

  lemma MulSucc(j: int, size: int)
    ensures (j + 1) * size == j * size + size
  {
  }

  /** Running the alerts of `batch` one after the other at `now`. */
  function RunAll(s: Store, batch: seq<PatentAlert>, matcher: Matcher, now: int): Store
    decreases |batch|
  {
    if batch == [] then s
    else
      var a := batch[|batch| - 1];
      Process(RunAll(s, batch[..|batch| - 1], matcher, now), a, Query(matcher, a), now).0
  }

  /** `_process_due_alerts` at `now`: the due alerts, each run once. */
  function Cycle(s: Store, matcher: Matcher, now: int): Store
  {
    RunAll(s, Due(s, now), matcher, now)
  }

  /** Successive cycles at the times `ticks`. */
  function Cycles(s: Store, matcher: Matcher, ticks: seq<int>): Store
  {
    if ticks == [] then s
    else Cycle(Cycles(s, matcher, ticks[..|ticks| - 1]), matcher, ticks[|ticks| - 1])
  }

  /** The ids of a list of alerts. */
  function Ids(alerts: seq<PatentAlert>): set<string>
  {
    set a | a in alerts :: a.id
  }

  /** A found notification for alert `a`. */
  predicate Finds(matcher: Matcher, a: PatentAlert)
  {
    Found(Query(matcher, a))
  }

  lemma {:induction false} RunAllValid(s: Store, batch: seq<PatentAlert>, matcher: Matcher, now: int)
    requires StoreValid(s)
    ensures StoreValid(RunAll(s, batch, matcher, now))
    decreases |batch|
  {
    if batch != [] {
      var a := batch[|batch| - 1];
      RunAllValid(s, batch[..|batch| - 1], matcher, now);
      ProcessSpec(RunAll(s, batch[..|batch| - 1], matcher, now), a, Query(matcher, a), now);
    }
  }

  /** Running `a` and then `b` is running `a + b`. */
  lemma {:induction false} RunAllConcat(s: Store, a: seq<PatentAlert>, b: seq<PatentAlert>, matcher: Matcher, now: int)
    ensures RunAll(s, a + b, matcher, now) == RunAll(RunAll(s, a, matcher, now), b, matcher, now)
    decreases |b|
  {
    if b == [] {
      assert a + b == a;
    } else {
      assert (a + b)[..|a + b| - 1] == a + b[..|b| - 1];
      RunAllConcat(s, a, b[..|b| - 1], matcher, now);
    }
  }

  /** Running batch after batch is running their concatenation. */
  lemma {:induction false} RunBatches(s: Store, batches: seq<seq<PatentAlert>>, matcher: Matcher, now: int)
    ensures RunAll(s, Flatten(batches), matcher, now) ==
      (if batches == [] then s else RunAll(RunAll(s, batches[0], matcher, now), Flatten(batches[1..]), matcher, now))
  {
    if batches != [] {
      RunAllConcat(s, batches[0], Flatten(batches[1..]), matcher, now);
    }
  }

  /** Running an active alert last writes it back advanced, over what the earlier runs left. */
  lemma RunAllLast(s: Store, batch: seq<PatentAlert>, matcher: Matcher, now: int)
    requires batch != [] && batch[|batch| - 1].status == Active
    ensures var a := batch[|batch| - 1];
      RunAll(s, batch, matcher, now).alerts == RunAll(s, batch[..|batch| - 1], matcher, now).alerts[a.id := Advanced(a, Finds(matcher, a), now)]
  {
    var a := batch[|batch| - 1];
    ProcessAlerts(RunAll(s, batch[..|batch| - 1], matcher, now), a, Query(matcher, a), now);
  }

  /** Running a list of active alerts with distinct ids stores each of them as advanced by its own run. */
  lemma {:induction false} RunAllAdvances(s: Store, batch: seq<PatentAlert>, matcher: Matcher, now: int)
    requires IdsDistinct(batch)
    requires forall i :: 0 <= i < |batch| ==> batch[i].status == Active
    ensures var r := RunAll(s, batch, matcher, now);
      forall i :: 0 <= i < |batch| ==>
        batch[i].id in r.alerts && r.alerts[batch[i].id] == Advanced(batch[i], Finds(matcher, batch[i]), now)
    decreases |batch|
  {
    if batch != [] {
      var init, a := batch[..|batch| - 1], batch[|batch| - 1];
      var r := RunAll(s, batch, matcher, now);
      RunAllAdvances(s, init, matcher, now);
      RunAllLast(s, batch, matcher, now);
      forall i | 0 <= i < |batch|
        ensures batch[i].id in r.alerts && r.alerts[batch[i].id] == Advanced(batch[i], Finds(matcher, batch[i]), now)
      {
        if i < |init| {
          assert batch[i] == init[i];
          assert init[i].id != a.id;
        }
      }
    }
  }

  /** Running a list of active alerts leaves every alert with another id as it was. */
  lemma {:induction false} RunAllLeavesOthers(s: Store, batch: seq<PatentAlert>, matcher: Matcher, now: int)
    requires forall i :: 0 <= i < |batch| ==> batch[i].status == Active
    ensures var r := RunAll(s, batch, matcher, now);
      forall k :: k !in Ids(batch) ==> (k in r.alerts <==> k in s.alerts) && (k in s.alerts ==> r.alerts[k] == s.alerts[k])
    decreases |batch|
  {
    if batch != [] {
      var init, a := batch[..|batch| - 1], batch[|batch| - 1];
      RunAllLeavesOthers(s, init, matcher, now);
      RunAllLast(s, batch, matcher, now);
      assert batch == init + [a];
      assert Ids(batch) == Ids(init) + {a.id};
    }
  }

  /** Running a list of alerts keeps the old notifications and adds one per alert whose run found something. */
  lemma {:induction false} RunAllNotifications(s: Store, batch: seq<PatentAlert>, matcher: Matcher, now: int)
    requires StoreValid(s)
    requires forall i :: 0 <= i < |batch| ==> batch[i].status == Active
    ensures var r := RunAll(s, batch, matcher, now);
      && (forall k :: k in s.notifications ==> k in r.notifications && r.notifications[k] == s.notifications[k])
      && |r.notificationOrder| == |s.notificationOrder| + CountWhere(batch, (a: PatentAlert) => Finds(matcher, a))
    decreases |batch|
  {
    if batch != [] {
      var init, a := batch[..|batch| - 1], batch[|batch| - 1];
      var mid := RunAll(s, init, matcher, now);
      RunAllNotifications(s, init, matcher, now);
      RunAllValid(s, init, matcher, now);
      ProcessNotifications(mid, a, Query(matcher, a), now);
    }
  }

  /**
   * Running a list that holds exactly the due alerts, once each: a due alert ends advanced by its
   * run, every other alert is unchanged.
   */
  lemma RunDueAlerts(s: Store, due: seq<PatentAlert>, matcher: Matcher, now: int)
    requires StoreValid(s) && IdsDistinct(due)
    requires forall a :: a in due <==> a.id in s.alerts && s.alerts[a.id] == a && IsDue(a, now)
    ensures var r := RunAll(s, due, matcher, now);
      && (forall k :: k in r.alerts <==> k in s.alerts)
      && (forall k :: k in s.alerts && IsDue(s.alerts[k], now) ==>
            r.alerts[k] == Advanced(s.alerts[k], Finds(matcher, s.alerts[k]), now))
      && (forall k :: k in s.alerts && !IsDue(s.alerts[k], now) ==> r.alerts[k] == s.alerts[k])
  {
    var r := RunAll(s, due, matcher, now);
    assert forall i :: 0 <= i < |due| ==> due[i].status == Active by {
      forall i | 0 <= i < |due| ensures due[i].status == Active {
        assert due[i] in due;
      }
    }
    RunAllAdvances(s, due, matcher, now);
    RunAllLeavesOthers(s, due, matcher, now);
    forall k | k in s.alerts && IsDue(s.alerts[k], now)
      ensures r.alerts[k] == Advanced(s.alerts[k], Finds(matcher, s.alerts[k]), now)
    {
      assert s.alerts[k] in due;
      var i :| 0 <= i < |due| && due[i] == s.alerts[k];
    }
    forall k | k in Ids(due) ensures k in s.alerts && IsDue(s.alerts[k], now) {
      var a :| a in due && a.id == k;
    }
  }

  /** A due alert is run by a cycle: it ends advanced by its run; every other alert is unchanged. */
  lemma CycleAlerts(s: Store, matcher: Matcher, now: int)
    requires StoreValid(s)
    ensures var r := Cycle(s, matcher, now);
      && (forall k :: k in r.alerts <==> k in s.alerts)
      && (forall k :: k in s.alerts && IsDue(s.alerts[k], now) ==>
            r.alerts[k] == Advanced(s.alerts[k], Finds(matcher, s.alerts[k]), now))
      && (forall k :: k in s.alerts && !IsDue(s.alerts[k], now) ==> r.alerts[k] == s.alerts[k])
  {
    DueSpec(s, now);
    RunDueAlerts(s, Due(s, now), matcher, now);
  }

  /** A cycle keeps the old notifications and adds one per due alert the matcher found something for. */
  lemma CycleNotifications(s: Store, matcher: Matcher, now: int)
    requires StoreValid(s)
    ensures var r := Cycle(s, matcher, now);
      && (forall k :: k in s.notifications ==> k in r.notifications && r.notifications[k] == s.notifications[k])
      && |r.notificationOrder| == |s.notificationOrder| + CountWhere(Due(s, now), (a: PatentAlert) => Finds(matcher, a))
  {
    DueSpec(s, now);
    RunAllNotifications(s, Due(s, now), matcher, now);
  }

  /**
   * One cycle runs every due alert exactly once and nothing else: a due alert ends with its last run
   * at `now` and its next run one period later, every other alert is unchanged, no notification is
   * lost, and one is added per due alert the matcher found something for.
   */
  lemma CycleSpec(s: Store, matcher: Matcher, now: int)
    requires StoreValid(s)
    ensures var r := Cycle(s, matcher, now);
      && StoreValid(r)
      && (forall k :: k in r.alerts <==> k in s.alerts)
      && (forall k :: k in s.alerts && IsDue(s.alerts[k], now) ==>
            r.alerts[k] == Advanced(s.alerts[k], Finds(matcher, s.alerts[k]), now))
      && (forall k :: k in s.alerts && !IsDue(s.alerts[k], now) ==> r.alerts[k] == s.alerts[k])
      && (forall k :: k in s.notifications ==> k in r.notifications && r.notifications[k] == s.notifications[k])
      && |r.notificationOrder| == |s.notificationOrder| + CountWhere(Due(s, now), (a: PatentAlert) => Finds(matcher, a))
  {
    RunAllValid(s, Due(s, now), matcher, now);
    CycleAlerts(s, matcher, now);
    CycleNotifications(s, matcher, now);
  }

  /** An alert advanced at `now` has its last run at `now` and its next run one period later, so it is not due at `now`. */
  lemma AdvancedNotDue(a: PatentAlert, found: bool, now: int)
    ensures Advanced(a, found, now).lastRun == Some(now)
    ensures Advanced(a, found, now).nextRun == Some(now + Period(a.frequency))
    ensures !IsDue(Advanced(a, found, now), now)
  {
  }

  /** A cycle leaves every alert that was due with its last run at `now` and its next run one period later. */
  lemma CycleReschedules(s: Store, matcher: Matcher, now: int)
    requires StoreValid(s)
    ensures var r := Cycle(s, matcher, now);
      forall k :: k in s.alerts && IsDue(s.alerts[k], now) ==>
        k in r.alerts && r.alerts[k].lastRun == Some(now) && r.alerts[k].nextRun == Some(now + Period(s.alerts[k].frequency))
  {
    var r := Cycle(s, matcher, now);
    CycleAlerts(s, matcher, now);
    forall k | k in s.alerts && IsDue(s.alerts[k], now)
      ensures k in r.alerts && r.alerts[k].lastRun == Some(now) && r.alerts[k].nextRun == Some(now + Period(s.alerts[k].frequency))
    {
      AdvancedNotDue(s.alerts[k], Finds(matcher, s.alerts[k]), now);
    }
  }

  /** A store in which each alert due before is advanced at `now` and every other one is unchanged has nothing due at `now`. */
  lemma NothingDueAfter(s: Store, r: Store, matcher: Matcher, now: int)
    requires StoreValid(r)
    requires forall k :: k in r.alerts <==> k in s.alerts
    requires forall k :: k in s.alerts && IsDue(s.alerts[k], now) ==>
      r.alerts[k] == Advanced(s.alerts[k], Finds(matcher, s.alerts[k]), now)
    requires forall k :: k in s.alerts && !IsDue(s.alerts[k], now) ==> r.alerts[k] == s.alerts[k]
    ensures Due(r, now) == []
  {
    DueSpec(r, now);
    forall k | k in r.alerts ensures !IsDue(r.alerts[k], now) {
      if IsDue(s.alerts[k], now) {
        AdvancedNotDue(s.alerts[k], Finds(matcher, s.alerts[k]), now);
      }
    }
    if Due(r, now) != [] {
      assert false;
    }
  }

  /** After a cycle at `now` no alert is due at `now` any more. */
  lemma CycleClearsBacklog(s: Store, matcher: Matcher, now: int)
    requires StoreValid(s)
    ensures Due(Cycle(s, matcher, now), now) == []
  {
    RunAllValid(s, Due(s, now), matcher, now);
    CycleAlerts(s, matcher, now);
    NothingDueAfter(s, Cycle(s, matcher, now), matcher, now);
  }

  /** A second cycle at the same time changes nothing. */
  lemma CycleIdempotent(s: Store, matcher: Matcher, now: int)
    requires StoreValid(s)
    ensures Cycle(Cycle(s, matcher, now), matcher, now) == Cycle(s, matcher, now)
  {
    CycleClearsBacklog(s, matcher, now);
  }

  /** Cycles keep the store well formed. */
  lemma {:induction false} CyclesValid(s: Store, matcher: Matcher, ticks: seq<int>)
    requires StoreValid(s)
    ensures StoreValid(Cycles(s, matcher, ticks))
  {
    if ticks != [] {
      var before := Cycles(s, matcher, ticks[..|ticks| - 1]);
      CyclesValid(s, matcher, ticks[..|ticks| - 1]);
      RunAllValid(before, Due(before, ticks[|ticks| - 1]), matcher, ticks[|ticks| - 1]);
    }
  }

  /** The cycles over a longer prefix of the ticks: one more cycle. */
  lemma CyclesStep(s: Store, matcher: Matcher, ticks: seq<int>, c: nat)
    requires c < |ticks|
    ensures Cycles(s, matcher, ticks[..c + 1]) == Cycle(Cycles(s, matcher, ticks[..c]), matcher, ticks[c])
  {
    assert ticks[..c + 1][..c] == ticks[..c];
  }

  /**
   * `process_all_alerts_now` runs the ordinary cycle: an active alert whose next run is still ahead
   * is not run by it.
   */
  lemma RunNowSkipsUndue(s: Store, matcher: Matcher, now: int, k: string)
    requires StoreValid(s) && k in s.alerts && s.alerts[k].status == Active && s.alerts[k].nextRun.value > now
    ensures k in Cycle(s, matcher, now).alerts && Cycle(s, matcher, now).alerts[k] == s.alerts[k]
  {
    CycleAlerts(s, matcher, now);
  }

  /** Running the prefix up to `end` is running the prefix up to `i` and then the slice between. */
  lemma RunPrefixStep(s: Store, due: seq<PatentAlert>, i: nat, end: nat, matcher: Matcher, now: int)
    requires i <= end <= |due|
    ensures RunAll(s, due[..end], matcher, now) == RunAll(RunAll(s, due[..i], matcher, now), due[i..end], matcher, now)
  {
    assert due[..i] + due[i..end] == due[..end];
    RunAllConcat(s, due[..i], due[i..end], matcher, now);
  }

  /** The next batch of the due list starting at `i`, and the batches after it. */
  lemma BatchesFrom(due: seq<PatentAlert>, i: nat)
    requires i < |due|
    ensures var end := if i + BATCH_SIZE < |due| then i + BATCH_SIZE else |due|;
      Batches(due[i..], BATCH_SIZE) == [due[i..end]] + Batches(due[end..], BATCH_SIZE)
  {
    var end := if i + BATCH_SIZE < |due| then i + BATCH_SIZE else |due|;
    assert due[i..][..end - i] == due[i..end];
    assert due[i..][end - i..] == due[end..];
  }

  /** What one turn of the loop of `_process_due_alerts` adds: the next batch, run after the earlier ones. */
  lemma BatchLoopStep(s0: Store, due: seq<PatentAlert>, i: nat, batches: seq<seq<PatentAlert>>, matcher: Matcher, now: int)
    requires i < |due|
    requires batches + Batches(due[Upto(i, |due|)..], BATCH_SIZE) == Batches(due, BATCH_SIZE)
    ensures var end := if i + BATCH_SIZE < |due| then i + BATCH_SIZE else |due|;
      && Upto(i, |due|) == i && Upto(i + BATCH_SIZE, |due|) == end
      && (batches + [due[i..end]]) + Batches(due[end..], BATCH_SIZE) == Batches(due, BATCH_SIZE)
      && RunAll(s0, due[..end], matcher, now) == RunAll(RunAll(s0, due[..i], matcher, now), due[i..end], matcher, now)
  {
    var end := if i + BATCH_SIZE < |due| then i + BATCH_SIZE else |due|;
    RunPrefixStep(s0, due, i, end, matcher, now);
    BatchesFrom(due, i);
    assert (batches + [due[i..end]]) + Batches(due[end..], BATCH_SIZE) == batches + Batches(due[i..], BATCH_SIZE);
  }

  /** `min(i, n)`: how much of a list of length `n` the batches starting below `i` cover. */
  function Upto(i: int, n: int): int
  {
    if i < n then i else n
  }

  /** The active alerts among `all`, in order (the list comprehension of `process_all_alerts_now`). */
  method ActiveAlerts(all: seq<PatentAlert>) returns (active: seq<PatentAlert>)
    ensures active == Filter(all, IsActive)
  {
    active := [];
    for k := 0 to |all|
      invariant active == Filter(all[..k], IsActive)
    {
      assert all[..k + 1][..k] == all[..k];
      if all[k].status == Active {
        active := active + [all[k]];
      }
    }
    assert all[..|all|] == all;
  }

  /** The alerts with status active, in dict order. */
  predicate IsActive(a: PatentAlert)
  {
    a.status == Active
  }

  /**
   * `AlertScheduler`: the service it drives, its check interval, whether it is running, and whether
   * a worker thread has been started (the thread reference is never cleared).
   */
  class AlertScheduler {
    const service: AlertService
    const checkInterval: int
    var running: bool
    var hasWorker: bool

    constructor (service: AlertService, checkInterval: int := DEFAULT_CHECK_INTERVAL)
      ensures this.service == service && this.checkInterval == checkInterval
      ensures !running && !hasWorker
    {
      this.service := service;
      this.checkInterval := checkInterval;
      running := false;
      hasWorker := false;
    }

    /** `start`: a running scheduler only warns; otherwise it is marked running and a worker is started. */
    method Start() returns (warned: bool)
      modifies this
      ensures warned == old(running)
      ensures running
      ensures hasWorker == (old(hasWorker) || !old(running))
    {
      if running {
        return true;
      }
      running := true;
      hasWorker := true;
      warned := false;
    }

    /** `stop`: a stopped scheduler only warns; otherwise it is marked stopped. */
    method Stop() returns (warned: bool)
      modifies this
      ensures warned == !old(running)
      ensures !running && hasWorker == old(hasWorker)
    {
      if !running {
        return true;
      }
      running := false;
      warned := false;
    }

    /** `_process_alert_batch`: each alert of the batch is run once, in batch order. */
    method ProcessAlertBatch(batch: seq<PatentAlert>, matcher: Matcher, now: int)
      requires service.Valid()
      modifies service
      ensures service.Valid()
      ensures service.State() == RunAll(old(service.State()), batch, matcher, now)
    {
      for k := 0 to |batch|
        invariant service.Valid()
        invariant service.State() == RunAll(old(service.State()), batch[..k], matcher, now)
      {
        assert batch[..k + 1][..k] == batch[..k];
        var _ := service.ProcessAlert(batch[k], matcher, now);
      }
      assert batch[..|batch|] == batch;
    }

    /** The loop of `_process_due_alerts`: `due` in consecutive batches of five, batch after batch. */
    method RunInBatches(due: seq<PatentAlert>, matcher: Matcher, now: int) returns (batches: seq<seq<PatentAlert>>)
      requires service.Valid()
      modifies service
      ensures service.Valid()
      ensures batches == Batches(due, BATCH_SIZE)
      ensures service.State() == RunAll(old(service.State()), due, matcher, now)
    {
      ghost var s0 := service.State();
      batches := [];
      var i := 0;
      while i < |due|
        invariant 0 <= i
        invariant batches + Batches(due[Upto(i, |due|)..], BATCH_SIZE) == Batches(due, BATCH_SIZE)
        invariant service.Valid()
        invariant service.State() == RunAll(s0, due[..Upto(i, |due|)], matcher, now)
        decreases |due| - i
      {
        var end := if i + BATCH_SIZE < |due| then i + BATCH_SIZE else |due|;
        var batch := due[i..end];
        BatchLoopStep(s0, due, i, batches, matcher, now);
        ProcessAlertBatch(batch, matcher, now);
        batches := batches + [batch];
        i := i + BATCH_SIZE;
      }
      assert due[..|due|] == due;
    }

    /** `_process_due_alerts` at `now`: the due alerts in batches of five; gives the batches it ran. */
    method ProcessDueAlerts(matcher: Matcher, now: int) returns (batches: seq<seq<PatentAlert>>)
      requires service.Valid()
      modifies service
      ensures service.Valid()
      ensures batches == Batches(Due(old(service.State()), now), BATCH_SIZE)
      ensures service.State() == Cycle(old(service.State()), matcher, now)
    {
      var due := service.GetAlertsDueForProcessing(now);
      if |due| == 0 {
        return [];
      }
      batches := RunInBatches(due, matcher, now);
    }

    /**
     * `process_all_alerts_now`: collects the active alerts and, when there is one, runs an ordinary
     * cycle at `now`; gives the active alerts it found.
     */
    method ProcessAllAlertsNow(matcher: Matcher, now: int) returns (active: seq<PatentAlert>)
      requires service.Valid()
      modifies service
      ensures service.Valid()
      ensures active == Filter(AlertList(old(service.State())), IsActive)
      ensures active == [] ==> service.State() == old(service.State())
      ensures active != [] ==> service.State() == Cycle(old(service.State()), matcher, now)
    {
      var all := Values(service.alerts, service.alertOrder);
      active := ActiveAlerts(all);
      if active == [] {
        return;
      }
      var _ := ProcessDueAlerts(matcher, now);
    }

    /**
     * `_run_scheduler` woken at the times `ticks`: while the scheduler is running, one cycle per
     * tick; gives the number of cycles run.
     */
    method RunScheduler(matcher: Matcher, ticks: seq<int>) returns (cycles: nat)
      requires service.Valid()
      modifies service
      ensures service.Valid()
      ensures cycles == if running then |ticks| else 0
      ensures service.State() == Cycles(old(service.State()), matcher, ticks[..cycles])
    {
      cycles := 0;
      while running && cycles < |ticks|
        invariant cycles <= |ticks|
        invariant running || cycles == 0
        invariant service.Valid()
        invariant service.State() == Cycles(old(service.State()), matcher, ticks[..cycles])
      {
        CyclesStep(old(service.State()), matcher, ticks, cycles);
        var _ := ProcessDueAlerts(matcher, ticks[cycles]);
        cycles := cycles + 1;
      }
    }
  }

  /** The module-level `_scheduler_instance` and the functions around it. */
  class SchedulerRegistry {
    var instance: AlertScheduler?

    constructor ()
      ensures instance == null
    {
      instance := null;
    }

    /**
     * `get_alert_scheduler`: the existing instance if there is one; otherwise a new stopped scheduler
     * with the default interval, over the given service or a new empty one, which becomes the instance.
     */
    method GetAlertScheduler(service: AlertService?) returns (scheduler: AlertScheduler)
      modifies this
      ensures instance == scheduler
      ensures old(instance) != null ==> scheduler == old(instance)
      ensures old(instance) == null ==>
        && fresh(scheduler) && !scheduler.running && !scheduler.hasWorker
        && scheduler.checkInterval == DEFAULT_CHECK_INTERVAL
        && (service != null ==> scheduler.service == service)
        && (service == null ==> fresh(scheduler.service) && scheduler.service.Valid()
                                && scheduler.service.State() == Store(map[], [], map[], []))
    {
      if instance == null {
        var s := service;
        if s == null {
          s := new AlertService();
        }
        instance := new AlertScheduler(s);
      }
      scheduler := instance;
    }

    /** `start_alert_scheduler`: the instance, created if need be, is running. */
    method StartAlertScheduler(service: AlertService?)
      modifies this, instance
      ensures instance != null && instance.running
      ensures old(instance) != null ==> instance == old(instance)
      ensures old(instance) == null ==> fresh(instance) && (service != null ==> instance.service == service)
    {
      var scheduler := GetAlertScheduler(service);
      var _ := scheduler.Start();
    }

    /** `stop_alert_scheduler`: the instance, if any, is stopped and forgotten. */
    method StopAlertScheduler()
      modifies this, instance
      ensures instance == null
      ensures old(instance) != null ==> !old(instance).running
    {
      if instance != null {
        var _ := instance.Stop();
        instance := null;
      }
    }
  }
}
