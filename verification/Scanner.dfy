// The scanner process: it follows the protocol event by event, through every failure of the store.
module Scanner {
  import opened Domain
  import opened Results
  import opened Tables
  import opened Protocol
  import opened ProtocolInvariant
  import opened ProtocolCoverage
  import opened Store
  import Pool
  import PoolRuns
  import PoolAnswers
  import PoolBatch
  import Attempts
  import H = Health

  // The writes made so far are a prefix of the writes of the batch.

  lemma {:induction false} FailuresPrefix(id: int, failures: seq<Failure>, j: nat)
    requires j <= |failures|
    ensures FailureTasks(id, failures[..j]) <= FailureTasks(id, failures)
  {
    if j < |failures| {
      var n := |failures| - 1;
      FailuresPrefix(id, failures[..n], j);
      assert failures[..n][..j] == failures[..j];
    } else {
      assert failures[..j] == failures;
    }
  }

  lemma {:induction false} FailuresExtend(id: int, failures: seq<Failure>, j: nat)
    requires j < |failures|
    ensures FailureTasks(id, failures[..j + 1]) == FailureTasks(id, failures[..j]) + FailureStep(id, failures[j])
    ensures FailureTasks(id, failures[..j + 1]) <= FailureTasks(id, failures)
  {
    FailuresPrefix(id, failures, j + 1);
    assert failures[..j + 1][..j] == failures[..j];
  }

  lemma {:induction false} AlertsPrefix(alerts: seq<NodeAlert>, j: nat)
    requires j <= |alerts|
    ensures AlertTasks(alerts[..j]) <= AlertTasks(alerts)
  {
    if j < |alerts| {
      var n := |alerts| - 1;
      AlertsPrefix(alerts[..n], j);
      assert alerts[..n][..j] == alerts[..j];
    } else {
      assert alerts[..j] == alerts;
    }
  }

  lemma {:induction false} AlertsExtend(alerts: seq<NodeAlert>, j: nat)
    requires j < |alerts|
    ensures AlertTasks(alerts[..j + 1]) == AlertTasks(alerts[..j]) + [Incident(alerts[j]), NodeEvent(alerts[j])]
    ensures AlertTasks(alerts[..j + 1]) <= AlertTasks(alerts)
  {
    AlertsPrefix(alerts, j + 1);
    assert alerts[..j + 1][..j] == alerts[..j];
  }

  lemma {:induction false} PrefixUnder(done: seq<Task>, part: seq<Task>, whole: seq<Task>, all: seq<Task>)
    requires part <= whole && done + whole <= all
    ensures done + part <= all
  {
    assert done + whole == done + part + whole[|part|..];
  }

  lemma {:induction false} TasksPrefix(results: seq<Result>, i: nat)
    requires i <= |results|
    ensures Tasks(results[..i]) <= Tasks(results)
  {
    if i < |results| {
      var n := |results| - 1;
      TasksPrefix(results[..n], i);
      assert results[..n][..i] == results[..i];
    } else {
      assert results[..i] == results;
    }
  }

  lemma {:induction false} TasksExtend(results: seq<Result>, i: nat)
    requires i < |results|
    ensures Tasks(results[..i + 1]) == Tasks(results[..i]) + ResultTasks(results[i])
    ensures Tasks(results[..i + 1]) <= Tasks(results)
  {
    TasksPrefix(results, i + 1);
    assert results[..i + 1][..i] == results[..i];
  }

  lemma {:induction false} CountExtends(results: seq<Result>, i: nat)
    requires i < |results|
    ensures Count(results[..i + 1]) == Count(results[..i]).Plus(CountOne(|results[i].findings|, |results[i].errors|))
  {
    SumExtends(EmptyResult, results, i);
    SumExtends(ResultFindings, results, i);
    SumExtends(ResultErrors, results, i);
  }

  lemma {:induction false} PausingExtends(results: seq<Result>, i: nat)
    requires i < |results|
    ensures Pausing(results[..i + 1]) == (Pausing(results[..i]) || results[i].pause)
  {
    assert results[..i + 1][i] == results[i];
    if Pausing(results[..i]) {
      var j :| 0 <= j < i && results[..i][j].pause;
      assert results[..i + 1][j].pause;
    }
    if Pausing(results[..i + 1]) && !results[i].pause {
      var j :| 0 <= j < i + 1 && results[..i + 1][j].pause;
      assert results[..i][j].pause;
    }
  }

  // Where the writes of one result lie among the writes of the batch.
  lemma {:induction false} ResultLayout(all: seq<Task>, done: seq<Task>, result: Result, failures: seq<Task>,
                                        alerts: seq<Task>)
    requires done + ResultTasks(result) <= all
    requires failures == done + FailureTasks(result.address.id, result.errors)
    requires alerts == failures + AlertTasks(result.alerts)
    ensures failures <= alerts <= all && |alerts| < |all| && all[|alerts|] == Save(result.findings)
    ensures done + ResultTasks(result) == alerts + [Save(result.findings)]
    ensures alerts + [Save(result.findings)] <= all
  {
    Layout(all, done, FailureTasks(result.address.id, result.errors), AlertTasks(result.alerts), Save(result.findings));
  }

  lemma {:induction false} Layout<T>(all: seq<T>, done: seq<T>, first: seq<T>, second: seq<T>, last: T)
    requires done + (first + second + [last]) <= all
    ensures done + first <= done + first + second <= all
    ensures |done + first + second| < |all| && all[|done + first + second|] == last
    ensures done + (first + second + [last]) == done + first + second + [last] <= all
  {
    var most := done + first + second;
    assert done + (first + second + [last]) == most + [last];
    assert (most + [last])[|most|] == last && (most + [last])[..|most|] == most;
  }

  lemma {:induction false} NoPauseNoIllness(batch: seq<Address>, before: set<Chain>, results: seq<Result>,
                                            after: set<Chain>)
    requires PoolRuns.BatchDone(batch, before, results, after)
    ensures after <= before || Pausing(results)
  {
    assert (forall r :: r in results ==> !r.pause) || Pausing(results);
  }

  datatype Outcome = Finished | NothingToDo | PausedAt(cursor: int) | StoreFailed

  class Scanner {
    const store: Store
    const setup: Pool.Setup
    const batchSize: nat
    const addressWorkers: nat
    var health: H.Book

    ghost predicate Configured() {
      Pool.ValidSetup(setup) && batchSize >= 1 && addressWorkers >= 1
    }

    // A scanner starts with no health record; every limited chain gets at least one slot.
    constructor (store: Store, providers: set<Chain>, limits: map<Chain, int>, policy: Attempts.Policy, threshold: nat,
                 batchSize: nat, addressWorkers: nat)
      requires batchSize >= 1 && addressWorkers >= 1
      ensures Configured() && this.store == store && health == map[]
      ensures setup.sizes.Keys == limits.Keys
    {
      this.store := store;
      this.setup := Pool.Setup(providers, map c | c in limits :: Max(limits[c], 1), policy, threshold);
      this.batchSize, this.addressWorkers := batchSize, addressWorkers;
      this.health := map[];
    }

    ghost predicate Ready()
      reads this, store
    {
      Configured() && store.Valid()
    }

    // The scanner is making the writes of a batch and has made exactly those in done.
    ghost predicate Wrote(all: seq<Task>, done: seq<Task>)
      reads store
    {
      && store.proc.Writing? && store.proc.tasks == all && store.mind.setup == setup
      && done <= all && store.proc.next == |done|
    }

    // Between two writes only the count of writes moves.
    ghost predicate SameBatch(before: Proc, mind: Mind)
      reads store
    {
      before.Writing? && store.proc.Writing? && store.proc == before.(next := store.proc.next) && store.mind == mind
    }

    // The protocol knows this scanner's configuration and health book.
    ghost predicate Known()
      reads this, store
    {
      store.mind.setup == setup && store.mind.width == addressWorkers && store.mind.health == health
    }

    ghost predicate Crashed()
      reads store
    {
      store.proc.Idle? && store.trace != [] && Last(store.trace).Crash?
    }

    method WriteFailure(ghost all: seq<Task>, ghost done: seq<Task>, id: int, failure: Failure) returns (ok: bool)
      requires Ready() && Wrote(all, done) && done + FailureStep(id, failure) <= all
      modifies store
      ensures store.Valid() && old(store.trace) <= store.trace
      ensures if ok then Wrote(all, done + FailureStep(id, failure)) && SameBatch(old(store.proc), old(store.mind))
              else Crashed()
      ensures ok <==> store.failures == old(store.failures)
    {
      var now: Time := *;
      assert all[|done|] == (done + FailureStep(id, failure))[|done|];
      ok := store.RecordRetry(id, failure, now, now + setup.policy.baseDelay);
      if ok && failure.code == "invalid_address" {
        assert all[|done| + 1] == (done + FailureStep(id, failure))[|done| + 1];
        ok := store.CloseRetry(Key(id, failure.chain));
      }
    }

    method WriteFailures(ghost all: seq<Task>, ghost done: seq<Task>, result: Result) returns (ok: bool)
      requires Ready() && Wrote(all, done)
      requires done + FailureTasks(result.address.id, result.errors) <= all
      modifies store
      ensures store.Valid() && old(store.trace) <= store.trace
      ensures if ok then Wrote(all, done + FailureTasks(result.address.id, result.errors))
                         && SameBatch(old(store.proc), old(store.mind))
              else Crashed()
      ensures ok <==> store.failures == old(store.failures)
    {
      var id, errors := result.address.id, result.errors;
      for j := 0 to |errors|
        invariant store.Valid() && old(store.trace) <= store.trace && store.failures == old(store.failures)
        invariant Wrote(all, done + FailureTasks(id, errors[..j])) && SameBatch(old(store.proc), old(store.mind))
      {
        FailuresExtend(id, errors, j);
        PrefixUnder(done, FailureTasks(id, errors[..j + 1]), FailureTasks(id, errors), all);
        ghost var sofar := done + FailureTasks(id, errors[..j]);
        assert done + FailureTasks(id, errors[..j + 1]) == sofar + FailureStep(id, errors[j]);
        ok := WriteFailure(all, sofar, id, errors[j]);
        if !ok { return; }
      }
      assert errors[..|errors|] == errors;
      ok := true;
    }

    method WriteAlert(ghost all: seq<Task>, ghost done: seq<Task>, alert: NodeAlert) returns (ok: bool)
      requires Ready() && Wrote(all, done) && done + [Incident(alert), NodeEvent(alert)] <= all
      modifies store
      ensures store.Valid() && old(store.trace) <= store.trace
      ensures if ok then Wrote(all, done + [Incident(alert), NodeEvent(alert)])
                         && SameBatch(old(store.proc), old(store.mind))
              else Crashed()
      ensures ok <==> store.failures == old(store.failures)
    {
      ghost var both := done + [Incident(alert), NodeEvent(alert)];
      assert all[|done|] == both[|done|];
      ok := store.CreateNodeIncident(alert);
      if ok {
        assert all[|done| + 1] == both[|done| + 1];
        ok := store.CreateNodeNotificationEvent(alert);
      }
    }

    method WriteAlerts(ghost all: seq<Task>, ghost done: seq<Task>, result: Result) returns (ok: bool)
      requires Ready() && Wrote(all, done) && done + AlertTasks(result.alerts) <= all
      modifies store
      ensures store.Valid() && old(store.trace) <= store.trace
      ensures if ok then Wrote(all, done + AlertTasks(result.alerts)) && SameBatch(old(store.proc), old(store.mind))
              else Crashed()
      ensures ok <==> store.failures == old(store.failures)
    {
      var alerts := result.alerts;
      for j := 0 to |alerts|
        invariant store.Valid() && old(store.trace) <= store.trace && store.failures == old(store.failures)
        invariant Wrote(all, done + AlertTasks(alerts[..j])) && SameBatch(old(store.proc), old(store.mind))
      {
        AlertsExtend(alerts, j);
        PrefixUnder(done, AlertTasks(alerts[..j + 1]), AlertTasks(alerts), all);
        ghost var sofar := done + AlertTasks(alerts[..j]);
        assert done + AlertTasks(alerts[..j + 1]) == sofar + [Incident(alerts[j]), NodeEvent(alerts[j])];
        ok := WriteAlert(all, sofar, alerts[j]);
        if !ok { return; }
      }
      assert alerts[..|alerts|] == alerts;
      ok := true;
    }

    method WriteResult(ghost all: seq<Task>, ghost done: seq<Task>, result: Result) returns (ok: bool)
      requires Ready() && Wrote(all, done) && done + ResultTasks(result) <= all
      modifies store
      ensures store.Valid() && old(store.trace) <= store.trace
      ensures if ok then Wrote(all, done + ResultTasks(result)) && SameBatch(old(store.proc), old(store.mind))
              else Crashed()
      ensures ok <==> store.failures == old(store.failures)
    {
      ghost var failures := done + FailureTasks(result.address.id, result.errors);
      ghost var alerts := failures + AlertTasks(result.alerts);
      ResultLayout(all, done, result, failures, alerts);
      ok := WriteFailures(all, done, result);
      if ok { ok := WriteAlerts(all, failures, result); }
      if ok { ok := store.SavePositiveFindings(result.findings); }
    }

    // Writes a batch and counts it on the way.
    method WriteBatch(results: seq<Result>) returns (ok: bool, counters: Counters, pause: bool)
      requires Ready() && Wrote(Tasks(results), [])
      modifies store
      ensures store.Valid() && old(store.trace) <= store.trace
      ensures if ok then Wrote(Tasks(results), Tasks(results)) && SameBatch(old(store.proc), old(store.mind))
              else Crashed()
      ensures ok <==> store.failures == old(store.failures)
      ensures ok ==> counters == Count(results) && pause == Pausing(results)
    {
      pause, counters := false, Counters(0, 0, 0, 0);
      ghost var all, done := Tasks(results), [];
      for i := 0 to |results|
        invariant store.Valid() && old(store.trace) <= store.trace && store.failures == old(store.failures)
        invariant Wrote(all, done) && SameBatch(old(store.proc), old(store.mind))
        invariant done == Tasks(results[..i])
        invariant counters == Count(results[..i]) && pause == Pausing(results[..i])
      {
        TasksExtend(results, i);
        ok := WriteResult(all, done, results[i]);
        if !ok { return; }
        done := Tasks(results[..i + 1]);
        CountExtends(results, i);
        PausingExtends(results, i);
        counters := Tally(counters, results[i]);
        pause := pause || results[i].pause;
      }
      assert results[..|results|] == results;
      ok := true;
    }

    // Counts one result.
    static method Tally(before: Counters, result: Result) returns (after: Counters)
      ensures after == before.Plus(CountOne(|result.findings|, |result.errors|))
    {
      after := before.(processed := before.processed + 1);
      if |result.findings| == 0 && |result.errors| == 0 {
        after := after.(empty := after.empty + 1);
      }
      after := after.(positive := after.positive + |result.findings|);
      after := after.(errors := after.errors + |result.errors|);
    }

    // Checks the addresses of a batch in the worker pool.
    method Check(run: nat, cursor: int, end: int, addresses: seq<Address>) returns (results: seq<Result>)
      requires Ready() && Known() && store.proc == Probing(run, cursor, end, addresses)
      modifies this, store
      ensures store.Valid() && Known() && old(store.trace) < store.trace
      ensures store.failures == old(store.failures)
      ensures store.proc.Writing? && store.proc.results == results && Wrote(Tasks(results), [])
      ensures store.proc.run == run && store.proc.cursor == cursor && store.proc.end == end
      ensures store.proc.batch == addresses
      ensures !Pausing(results) ==> H.Unhealthy(health) <= old(H.Unhealthy(health))
    {
      var after;
      ghost var log, cancelled;
      var oracle: PoolAnswers.Oracle := *;
      results, after, log, cancelled := PoolBatch.ProcessBatch(setup, addresses, addressWorkers, health, oracle, true);
      NoPauseNoIllness(addresses, H.Unhealthy(health), results, H.Unhealthy(after));
      store.Probed(results, after);
      health := after;
    }

    // One batch of a run: checked, written, and either counted or left for the next start.
    method Batch(run: nat, cursor: int, end: int, addresses: seq<Address>) returns (stop: Option<Outcome>, next: int)
      requires Ready() && Known() && store.proc == Probing(run, cursor, end, addresses) && addresses != []
      requires cursor < addresses[|addresses| - 1].id <= end
      modifies this, store
      ensures store.Valid() && old(store.trace) < store.trace
      ensures stop == Some(StoreFailed) <==> store.failures != old(store.failures)
      ensures stop.None? ==> Known() && cursor < next <= end && store.proc == Fetching(run, next, end)
      ensures stop.None? ==> H.Unhealthy(health) <= old(H.Unhealthy(health))
      ensures stop.Some? ==> store.proc.Idle? && Stopped(stop.value)
      ensures stop.Some? ==> !stop.value.Finished? && !stop.value.NothingToDo?
    {
      var results := Check(run, cursor, end, addresses);
      var ok, counters, pause := WriteBatch(results);
      if !ok { return Some(StoreFailed), cursor; }
      stop, next := Close(run, cursor, end, addresses, counters, pause);
    }

    // Pauses the run, or moves its cursor over the batch.
    method Close(run: nat, cursor: int, end: int, addresses: seq<Address>, counters: Counters, pause: bool)
      returns (stop: Option<Outcome>, next: int)
      requires Ready() && store.proc.Writing? && store.proc.next == |store.proc.tasks|
      requires store.proc.run == run && store.proc.cursor == cursor && store.proc.end == end
      requires store.proc.batch == addresses && addresses != [] && cursor < addresses[|addresses| - 1].id <= end
      requires counters == Count(store.proc.results) && pause == Pausing(store.proc.results)
      modifies store
      ensures store.Valid() && old(store.trace) < store.trace
      ensures stop == Some(StoreFailed) <==> store.failures != old(store.failures)
      ensures stop.None? ==> !pause && cursor < next <= end && store.proc == Fetching(run, next, end)
      ensures stop.None? ==> store.mind == old(store.mind)
      ensures stop.Some? ==> store.proc.Idle? && Stopped(stop.value)
      ensures stop.Some? ==> !stop.value.Finished? && !stop.value.NothingToDo?
    {
      if pause {
        var ok := store.PauseScan(run);
        return Some(if ok then PausedAt(cursor) else StoreFailed), cursor;
      }
      next := addresses[|addresses| - 1].id;
      var ok := store.AdvanceScan(run, next, counters);
      stop := if ok then None else Some(StoreFailed);
    }

    // What the tables and the history say when the scanner stops.
    ghost predicate Stopped(outcome: Outcome)
      reads store
    {
      && store.trace != []
      && match outcome
         case Finished =>
           && Last(store.trace).Complete? && AllCompleted(store.State())
           && (forall id :: id in EverStored(store.Now()) && !Above(store.runs, id) ==> Scanned(store.Now(), id))
         case NothingToDo => Last(store.trace).Plan? && forall id :: id in store.rows ==> Scanned(store.Now(), id)
         case StoreFailed => Last(store.trace).Crash?
         case PausedAt(cursor) =>
           && Last(store.trace).Pause?
           && exists run :: (0 <= run < |store.runs|
                             && store.runs[run].status.Paused? && store.runs[run].cursor == cursor)
    }

    // One page of a run: completed if the page is empty, otherwise one batch.
    method Page(run: nat, cursor: int, end: int) returns (stop: Option<Outcome>, next: int)
      requires Ready() && Known() && store.proc == Fetching(run, cursor, end)
      modifies this, store
      ensures store.Valid() && old(store.trace) < store.trace
      ensures stop == Some(StoreFailed) <==> store.failures != old(store.failures)
      ensures stop.None? ==> Known() && cursor < next <= end && store.proc == Fetching(run, next, end)
      ensures stop.None? || stop.value.Finished? ==> H.Unhealthy(health) <= old(H.Unhealthy(health))
      ensures stop.Some? ==> store.proc.Idle? && Stopped(stop.value) && !stop.value.NothingToDo?
      ensures stop == Some(Finished) ==> run < |store.runs| && store.runs[run].end == end
    {
      var ok, addresses := store.NextAddresses(run, cursor, end, batchSize);
      if !ok { return Some(StoreFailed), cursor; }
      if |addresses| == 0 {
        var now: Time := *;
        ok := store.CompleteScan(run, now);
        if ok { store.CompletedMeansScanned(); }
        return Some(if ok then Finished else StoreFailed), cursor;
      }
      stop, next := Batch(run, cursor, end, addresses);
    }

    // Walks a run to its end, batch by batch. Unless the run pauses, no chain has fallen ill on the way.
    method Run(run: nat, start: int, end: int) returns (outcome: Outcome)
      requires Ready() && Known() && store.proc == Fetching(run, start, end)
      modifies this, store
      ensures store.Valid() && old(store.trace) < store.trace && store.proc.Idle?
      ensures outcome.StoreFailed? <==> store.failures != old(store.failures)
      ensures Stopped(outcome) && !outcome.NothingToDo?
      ensures outcome.Finished? ==> run < |store.runs| && store.runs[run].end == end
      ensures outcome.Finished? ==> H.Unhealthy(health) <= old(H.Unhealthy(health))
    {
      var cursor := start;
      while true
        invariant store.Valid() && old(store.trace) <= store.trace && store.failures == old(store.failures)
        invariant Known() && store.proc == Fetching(run, cursor, end)
        invariant H.Unhealthy(health) <= old(H.Unhealthy(health))
        decreases end - cursor
      {
        var stop;
        stop, cursor := Page(run, cursor, end);
        if stop.Some? { return stop.value; }
      }
    }

    // Opens a run over the addresses above all completed runs, if there are any.
    method Open() returns (stop: Option<Outcome>, run: nat, start: int, end: int)
      requires Ready() && Known() && store.proc.Planning?
      modifies store
      ensures store.Valid() && old(store.trace) < store.trace
      ensures stop == Some(StoreFailed) <==> store.failures != old(store.failures)
      ensures stop.None? ==> Known() && store.proc == Fetching(run, start, end)
      ensures stop.None? ==> forall id :: id in EverStored(old(store.Now())) ==> id <= end
      ensures stop.Some? ==> store.proc.Idle? && Stopped(stop.value)
      ensures stop.Some? ==> stop.value.NothingToDo? || stop.value.StoreFailed?
    {
      run, start, end := 0, 0, 0;
      var ok, range := store.UnscannedRange();
      if !ok { return Some(StoreFailed), run, start, end; }
      if range.None? { return Some(NothingToDo), run, start, end; }
      ok, run := store.CreateScan(range.value.0, range.value.1);
      if !ok { return Some(StoreFailed), run, start, end; }
      stop, start, end := None, range.value.0 - 1, range.value.1;
    }

    // Opens a run and walks it to its end.
    method OpenAndRun() returns (outcome: Outcome)
      requires Ready() && Known() && store.proc.Planning?
      modifies this, store
      ensures store.Valid() && old(store.trace) < store.trace && store.proc.Idle?
      ensures outcome.StoreFailed? <==> store.failures != old(store.failures)
      ensures Stopped(outcome)
      ensures outcome.Finished? ==> forall id :: id in EverStored(old(store.Now())) ==> Scanned(store.Now(), id)
      ensures outcome.Finished? ==> H.Unhealthy(health) <= old(H.Unhealthy(health))
    {
      var stop, created, start, end := Open();
      if stop.Some? { return stop.value; }
      outcome := Run(created, start, end);
      store.NothingVanishes(old(store.trace), old(store.Now()));
    }

    // Resumes an active run or creates one for the addresses above all completed runs. With no active run, finishing
    // means that every address there was at the call has been scanned.
    method RunOnce() returns (outcome: Outcome)
      requires Ready() && store.proc.Idle?
      modifies this, store
      ensures store.Valid() && old(store.trace) < store.trace && store.proc.Idle?
      ensures outcome.StoreFailed? <==> store.failures != old(store.failures)
      ensures Stopped(outcome)
      ensures outcome.Finished? && old(AllCompleted(store.State())) ==>
                forall id :: id in EverStored(old(store.Now())) ==> Scanned(store.Now(), id)
      ensures outcome.Finished? ==> H.Unhealthy(health) <= old(H.Unhealthy(health))
    {
      var ok, active, run := store.ActiveScan(setup, addressWorkers, health);
      if !ok { return StoreFailed; }
      store.NothingVanishes(old(store.trace), old(store.Now()));
      match active {
        case None =>
          outcome := OpenAndRun();
        case Some(i) =>
          if run.status.Paused? {
            ok := store.ResumeScan(i);
            if !ok { return StoreFailed; }
          }
          outcome := Run(i, run.cursor, run.end);
      }
    }
  }

  ghost function Last(trace: seq<Event>): Event
    requires trace != []
  {
    trace[|trace| - 1]
  }
}
