// The retry queue is what the history of writes has made it, and a batch writes what it found.
module QueueHistory {
  import opened Domain
  import opened Results
  import opened Tables
  import opened Protocol
  import opened ProtocolInvariant
  import opened ProtocolSafety

  // The write an event makes, with the time until which it puts an entry off.
  ghost function WritesOf(w: World, e: Event): seq<(Task, Time)>
    requires Enabled(w, e)
  {
    match e
    case Tool(task, at) => [(task, at)]
    case Write(now) => [(w.proc.tasks[w.proc.next], now + w.mind.setup.policy.baseDelay)]
    case _ => []
  }

  ghost function Writes(events: seq<Event>): seq<(Task, Time)>
    requires Possible(GENESIS, events)
  {
    if events == [] then []
    else
      var n := |events| - 1;
      Writes(events[..n]) + WritesOf(End(GENESIS, events[..n]), events[n])
  }

  predicate Records(task: Task, key: Key) { task.Record? && Key(task.id, task.failure.chain) == key }

  function Recordings(writes: seq<(Task, Time)>, key: Key): nat {
    if writes == [] then 0
    else Recordings(writes[..|writes| - 1], key) + if Records(writes[|writes| - 1].0, key) then 1 else 0
  }

  // The n-th write is the last error recorded for the key.
  predicate LastRecord(writes: seq<(Task, Time)>, key: Key, n: int) {
    0 <= n < |writes| && Records(writes[n].0, key) && forall m :: n < m < |writes| ==> !Records(writes[m].0, key)
  }

  // The entry shows the last error and its time, counts all of them, and is resolved exactly if it was closed since.
  ghost predicate EntryFits(entry: Retry, writes: seq<(Task, Time)>, key: Key, n: int) {
    && LastRecord(writes, key, n)
    && entry.code == writes[n].0.failure.code && entry.provider == writes[n].0.failure.provider
    && entry.message == writes[n].0.failure.message && entry.nextAt == writes[n].1
    && entry.attempts == Recordings(writes, key)
    && (entry.resolved <==> exists m :: n < m < |writes| && writes[m].0 == Close(key))
  }

  ghost predicate QueueFits(db: Db, writes: seq<(Task, Time)>, key: Key) {
    if key in db.retries then exists n :: EntryFits(db.retries[key], writes, key, n) else Recordings(writes, key) == 0
  }

  lemma {:induction false} OneMoreWrite(db: Db, writes: seq<(Task, Time)>, task: Task, at: Time, key: Key)
    requires QueueFits(db, writes, key)
    ensures QueueFits(Execute(db, task, at), writes + [(task, at)], key)
  {
    var longer, after := writes + [(task, at)], Execute(db, task, at);
    assert longer[..|writes|] == writes;
    if Records(task, key) {
      assert EntryFits(after.retries[key], longer, key, |writes|);
    } else if key in db.retries {
      var n :| EntryFits(db.retries[key], writes, key, n);
      assert forall m :: 0 <= m < |writes| ==> longer[m] == writes[m];
      if task == Close(key) { assert longer[|writes|].0 == Close(key); }
      assert EntryFits(after.retries[key], longer, key, n);
    }
  }

  lemma {:induction false} ImportKeepsQueue(db: Db, rows: seq<Row>)
    ensures InsertAll(db, rows).0.retries == db.retries && InsertAll(db, rows).0.nextRetry == db.nextRetry
  {
    if rows != [] { ImportKeepsQueue(db, rows[..|rows| - 1]); }
  }

  lemma {:induction false} OtherEventsKeepQueue(w: World, e: Event)
    requires Enabled(w, e) && !e.Tool? && !e.Write?
    ensures Apply(w, e).db.retries == w.db.retries && Apply(w, e).db.nextRetry == w.db.nextRetry
  {
    if e.Import? { ImportKeepsQueue(w.db, e.rows); }
  }

  // After any run of the system the entry of a key is determined by the writes that concern it.
  lemma {:induction false} EntryIsHistory(events: seq<Event>, key: Key)
    requires Possible(GENESIS, events)
    ensures QueueFits(End(GENESIS, events).db, Writes(events), key)
  {
    if events != [] {
      var n := |events| - 1;
      EntryIsHistory(events[..n], key);
      StepFits(End(GENESIS, events[..n]), events[n], Writes(events[..n]), key);
    }
  }

  lemma {:induction false} StepFits(w: World, e: Event, writes: seq<(Task, Time)>, key: Key)
    requires Enabled(w, e) && QueueFits(w.db, writes, key)
    ensures QueueFits(Apply(w, e).db, writes + WritesOf(w, e), key)
  {
    match e {
      case Tool(task, at) => OneMoreWrite(w.db, writes, task, at, key);
      case Write(now) => OneMoreWrite(w.db, writes, w.proc.tasks[w.proc.next], RetryTime(w.mind, now), key);
      case _ =>
        OtherEventsKeepQueue(w, e);
        assert writes + [] == writes;
    }
  }

  // Entries are numbered in the order in which their keys were first recorded.

  predicate FirstRecord(writes: seq<(Task, Time)>, key: Key, n: int) {
    0 <= n < |writes| && Records(writes[n].0, key) && forall m :: 0 <= m < n ==> !Records(writes[m].0, key)
  }

  // Serial numbers grow with the places of the first records.
  ghost predicate Numbered(db: Db, writes: seq<(Task, Time)>) {
    && (forall key :: key in db.retries ==> db.retries[key].serial < db.nextRetry && HasFirst(writes, key))
    && (forall a, b, i, j :: (a in db.retries && b in db.retries
                              && FirstRecord(writes, a, i) && FirstRecord(writes, b, j) && i < j) ==>
          db.retries[a].serial < db.retries[b].serial)
  }

  ghost predicate HasFirst(writes: seq<(Task, Time)>, key: Key) { exists n :: FirstRecord(writes, key, n) }

  lemma {:induction false} FirstStays(writes: seq<(Task, Time)>, more: (Task, Time), key: Key, n: int)
    requires n < |writes|
    ensures FirstRecord(writes + [more], key, n) <==> FirstRecord(writes, key, n)
  {
    assert forall m :: 0 <= m < |writes| ==> (writes + [more])[m] == writes[m];
  }

  lemma {:induction false} FirstIsUnique(writes: seq<(Task, Time)>, key: Key, i: int, j: int)
    requires FirstRecord(writes, key, i) && FirstRecord(writes, key, j)
    ensures i == j
  {}

  lemma {:induction false} NumberingExtends(db: Db, writes: seq<(Task, Time)>, task: Task, at: Time)
    requires Numbered(db, writes) && forall key :: QueueFits(db, writes, key)
    ensures Numbered(Execute(db, task, at), writes + [(task, at)])
  {
    var longer, after := writes + [(task, at)], Execute(db, task, at);
    forall key | key in after.retries ensures after.retries[key].serial < after.nextRetry && HasFirst(longer, key) {
      KeyIsNumbered(db, writes, task, at, key);
    }
    forall a, b, i, j | a in after.retries && b in after.retries && FirstRecord(longer, a, i)
        && FirstRecord(longer, b, j) && i < j
      ensures after.retries[a].serial < after.retries[b].serial
    {
      FirstStays(writes, (task, at), a, i);
      PlaceTells(db, writes, task, at, a, i);
      PlaceTells(db, writes, task, at, b, j);
      if j < |writes| { FirstStays(writes, (task, at), b, j); }
    }
  }

  lemma {:induction false} KeyIsNumbered(db: Db, writes: seq<(Task, Time)>, task: Task, at: Time, key: Key)
    requires Numbered(db, writes) && QueueFits(db, writes, key) && key in Execute(db, task, at).retries
    ensures var after := Execute(db, task, at);
            after.retries[key].serial < after.nextRetry && HasFirst(writes + [(task, at)], key)
  {
    if key in db.retries {
      var n :| FirstRecord(writes, key, n);
      FirstStays(writes, (task, at), key, n);
    } else {
      NoneRecorded(writes, key);
      assert FirstRecord(writes + [(task, at)], key, |writes|);
    }
  }

  lemma {:induction false} NoneRecorded(writes: seq<(Task, Time)>, key: Key)
    requires Recordings(writes, key) == 0
    ensures forall m :: 0 <= m < |writes| ==> !Records(writes[m].0, key)
  {
    if writes != [] { NoneRecorded(writes[..|writes| - 1], key); }
  }

  // An entry first recorded by the last write is new and has the next number; any other keeps its own.
  lemma {:induction false} PlaceTells(db: Db, writes: seq<(Task, Time)>, task: Task, at: Time, key: Key, n: int)
    requires Numbered(db, writes) && QueueFits(db, writes, key) && key in Execute(db, task, at).retries
    requires FirstRecord(writes + [(task, at)], key, n)
    ensures n == |writes| ==> Execute(db, task, at).retries[key].serial == db.nextRetry
    ensures n < |writes| ==> key in db.retries && Execute(db, task, at).retries[key].serial == db.retries[key].serial
    ensures key in db.retries ==> db.retries[key].serial < db.nextRetry
  {
    if key in db.retries {
      var m :| FirstRecord(writes, key, m);
      FirstStays(writes, (task, at), key, m);
      FirstIsUnique(writes + [(task, at)], key, m, n);
    } else if n < |writes| {
      NoneRecorded(writes, key);
    }
  }

  lemma {:induction false} EntriesAreNumbered(events: seq<Event>)
    requires Possible(GENESIS, events)
    ensures Numbered(End(GENESIS, events).db, Writes(events))
  {
    if events != [] {
      var n := |events| - 1;
      EntriesAreNumbered(events[..n]);
      forall key ensures QueueFits(End(GENESIS, events[..n]).db, Writes(events[..n]), key) {
        EntryIsHistory(events[..n], key);
      }
      StepNumbers(End(GENESIS, events[..n]), events[n], Writes(events[..n]));
    }
  }

  lemma {:induction false} SameQueueIsNumbered(db: Db, after: Db, writes: seq<(Task, Time)>)
    requires Numbered(db, writes) && after.retries == db.retries && after.nextRetry == db.nextRetry
    ensures Numbered(after, writes + [])
  {
    assert writes + [] == writes;
  }

  lemma {:induction false} WriteIs(w: World, e: Event)
    requires Enabled(w, e) && (e.Tool? || e.Write?)
    ensures |WritesOf(w, e)| == 1
    ensures Apply(w, e).db == Execute(w.db, WritesOf(w, e)[0].0, WritesOf(w, e)[0].1)
  {}

  lemma {:induction false} StepNumbers(w: World, e: Event, writes: seq<(Task, Time)>)
    requires Enabled(w, e) && Numbered(w.db, writes) && forall key :: QueueFits(w.db, writes, key)
    ensures Numbered(Apply(w, e).db, writes + WritesOf(w, e))
  {
    if e.Tool? || e.Write? {
      WriteIs(w, e);
      var (task, at) := WritesOf(w, e)[0];
      NumberingExtends(w.db, writes, task, at);
      assert WritesOf(w, e) == [(task, at)];
    } else {
      OtherEventsKeepQueue(w, e);
      SameQueueIsNumbered(w.db, Apply(w, e).db, writes);
      assert WritesOf(w, e) == [];
    }
  }

  // The writes of one batch.

  predicate Concerned(task: Task, key: Key) { Records(task, key) || task == Close(key) }

  lemma {:induction false} PlayedJoins(db: Db, a: seq<Task>, b: seq<Task>, at: Time)
    ensures Played(db, a + b, at) == Played(Played(db, a, at), b, at)
  {
    if b == [] {
      assert a + b == a;
    } else {
      PlayedJoins(db, a, b[..|b| - 1], at);
      assert (a + b)[..|a + b| - 1] == a + b[..|b| - 1];
    }
  }

  lemma {:induction false} OthersKeepEntry(db: Db, tasks: seq<Task>, at: Time, key: Key)
    requires forall task :: task in tasks ==> !Concerned(task, key)
    ensures key in Played(db, tasks, at).retries <==> key in db.retries
    ensures key in db.retries ==> Played(db, tasks, at).retries[key] == db.retries[key]
  {
    if tasks != [] {
      var n := |tasks| - 1;
      OthersKeepEntry(db, tasks[..n], at, key);
      assert !Concerned(tasks[n], key);
    }
  }

  // The errors of an address are on different chains.
  lemma {:induction false} ErrorsDiffer(kind: AddressType, answers: seq<Reply>, i: nat, j: nat)
    requires |answers| <= |ChainsFor(kind)| && i < j < |ErrorsOf(kind, answers)|
    ensures ErrorsOf(kind, answers)[i].chain != ErrorsOf(kind, answers)[j].chain
  {
    var n := |answers| - 1;
    if j < |ErrorsOf(kind, answers[..n])| {
      ErrorsDiffer(kind, answers[..n], i, j);
    } else {
      var k := ErrorComesFrom(kind, answers[..n], i);
    }
  }

  lemma {:induction false} ErrorComesFrom(kind: AddressType, answers: seq<Reply>, i: nat) returns (k: nat)
    requires |answers| <= |ChainsFor(kind)| && i < |ErrorsOf(kind, answers)|
    ensures k < |answers| && ErrorsOf(kind, answers)[i].chain == ChainsFor(kind)[k]
  {
    var n := |answers| - 1;
    if i < |ErrorsOf(kind, answers[..n])| { k := ErrorComesFrom(kind, answers[..n], i); } else { k := n; }
  }

  lemma {:induction false} FailureLies(id: int, failures: seq<Failure>, j: nat)
    returns (before: seq<Task>, after: seq<Task>)
    requires j < |failures| && forall k :: j < k < |failures| ==> failures[k].chain != failures[j].chain
    ensures FailureTasks(id, failures) == before + FailureStep(id, failures[j]) + after
    ensures forall task :: task in after ==> !Concerned(task, Key(id, failures[j].chain))
  {
    var n := |failures| - 1;
    if j == n {
      before, after := FailureTasks(id, failures[..n]), [];
    } else {
      before, after := FailureLies(id, failures[..n], j);
      after := after + FailureStep(id, failures[n]);
    }
  }

  lemma {:induction false} AlertsConcernNone(alerts: seq<NodeAlert>, key: Key)
    ensures forall task :: task in AlertTasks(alerts) ==> !Concerned(task, key)
  {
    if alerts != [] { AlertsConcernNone(alerts[..|alerts| - 1], key); }
  }

  lemma {:induction false} FailuresConcernId(id: int, failures: seq<Failure>, key: Key)
    requires key.id != id
    ensures forall task :: task in FailureTasks(id, failures) ==> !Concerned(task, key)
  {
    if failures != [] { FailuresConcernId(id, failures[..|failures| - 1], key); }
  }

  ghost predicate DistinctIds(results: seq<Result>) {
    forall i, j :: 0 <= i < j < |results| ==> results[i].address.id != results[j].address.id
  }

  // A part of a list stays a part when the list grows at either end.
  lemma {:induction false} Around<T>(first: seq<T>, list: seq<T>, last: seq<T>, a: seq<T>, b: seq<T>, c: seq<T>)
    requires list == a + b + c
    ensures first + list == (first + a) + b + c
    ensures list + last == a + b + (c + last)
  {}

  lemma {:induction false} StepLiesInResult(result: Result, j: nat) returns (before: seq<Task>, after: seq<Task>)
    requires FullyAnswered(result) && j < |result.errors|
    ensures ResultTasks(result) == before + FailureStep(result.address.id, result.errors[j]) + after
    ensures forall task :: task in after ==> !Concerned(task, Key(result.address.id, result.errors[j].chain))
  {
    var id, errors := result.address.id, result.errors;
    forall i | j < i < |errors| ensures errors[i].chain != errors[j].chain {
      ErrorsDiffer(result.address.kind, result.answers, j, i);
    }
    var rest;
    before, rest := FailureLies(id, errors, j);
    AlertsConcernNone(result.alerts, Key(id, errors[j].chain));
    var last := AlertTasks(result.alerts) + [Save(result.findings)];
    Around([], FailureTasks(id, errors), last, before, FailureStep(id, errors[j]), rest);
    after := rest + last;
    assert ResultTasks(result) == FailureTasks(id, errors) + last;
  }

  lemma {:induction false} ResultConcernsId(result: Result, key: Key)
    requires key.id != result.address.id
    ensures forall task :: task in ResultTasks(result) ==> !Concerned(task, key)
  {
    FailuresConcernId(result.address.id, result.errors, key);
    AlertsConcernNone(result.alerts, key);
  }

  lemma {:induction false} StepLies(results: seq<Result>, k: nat, j: nat) returns (before: seq<Task>, after: seq<Task>)
    requires k < |results| && FullyAnswered(results[k]) && j < |results[k].errors| && DistinctIds(results)
    ensures Tasks(results) == before + FailureStep(results[k].address.id, results[k].errors[j]) + after
    ensures forall task :: task in after ==> !Concerned(task, Key(results[k].address.id, results[k].errors[j].chain))
  {
    var n := |results| - 1;
    var id, failure := results[k].address.id, results[k].errors[j];
    var step, first, last := FailureStep(id, failure), Tasks(results[..n]), ResultTasks(results[n]);
    if k == n {
      before, after := StepLiesInResult(results[k], j);
      Around(first, last, [], before, step, after);
      before := first + before;
    } else {
      before, after := StepLies(results[..n], k, j);
      Around([], first, last, before, step, after);
      ResultConcernsId(results[n], Key(id, failure.chain));
      after := after + last;
    }
    assert Tasks(results) == first + last;
  }

  // The error has an entry that shows it, due at the time given, and open unless the address is invalid for good.
  predicate IsQueued(db: Db, id: int, failure: Failure, at: Time) {
    var key := Key(id, failure.chain);
    && key in db.retries
    && db.retries[key].code == failure.code && db.retries[key].provider == failure.provider
    && db.retries[key].message == failure.message && db.retries[key].nextAt == at
    && (db.retries[key].resolved <==> failure.code == "invalid_address")
  }

  // A batch written without interruption queues each of its errors.
  lemma {:induction false} ErrorsAreQueued(db: Db, results: seq<Result>, k: nat, j: nat, at: Time)
    requires k < |results| && FullyAnswered(results[k]) && j < |results[k].errors| && DistinctIds(results)
    ensures IsQueued(Played(db, Tasks(results), at), results[k].address.id, results[k].errors[j], at)
  {
    var id, failure := results[k].address.id, results[k].errors[j];
    var before, after := StepLies(results, k, j);
    var step := FailureStep(id, failure);
    PlayedJoins(db, before + step, after, at);
    PlayedJoins(db, before, step, at);
    StepIsPlayed(Played(db, before, at), id, failure, at);
    OthersKeepEntry(Played(db, before + step, at), after, at, Key(id, failure.chain));
  }

  lemma {:induction false} StepIsPlayed(db: Db, id: int, failure: Failure, at: Time)
    ensures IsQueued(Played(db, FailureStep(id, failure), at), id, failure, at)
  {
    FailureStepIsPlayed(db, id, failure, at);
  }

  lemma {:induction false} FailureStepIsPlayed(db: Db, id: int, failure: Failure, at: Time)
    ensures failure.code == "invalid_address" ==> (
              Played(db, FailureStep(id, failure), at)
              == CloseRetry(RecordRetry(db, id, failure, at), Key(id, failure.chain)))
    ensures failure.code != "invalid_address" ==>
              Played(db, FailureStep(id, failure), at) == RecordRetry(db, id, failure, at)
  {
    OneTask(db, Record(id, failure), at);
    TwoTasks(db, Record(id, failure), Close(Key(id, failure.chain)), at);
  }

  lemma {:induction false} OneTask(db: Db, a: Task, at: Time)
    ensures Played(db, [a], at) == Execute(db, a, at)
  {
    assert [a][..|[a]| - 1] == [];
  }

  lemma {:induction false} TwoTasks(db: Db, a: Task, b: Task, at: Time)
    ensures Played(db, [a, b], at) == Execute(Execute(db, a, at), b, at)
  {
    assert [a, b][..|[a, b]| - 1] == [a];
    OneTask(db, a, at);
  }

  // Every alert of the batch leaves an incident and a notice, in order.

  function NodeErrors(notices: seq<Notice>): seq<NodeAlert> {
    if notices == [] then []
    else
      var last := notices[|notices| - 1];
      NodeErrors(notices[..|notices| - 1]) + if last.NodeError? then [last.alert] else []
  }

  // The alerts on record, as incidents and as notices; folded.
  ghost predicate OnRecord(db: Db, after: Db, alerts: seq<NodeAlert>) {
    forall depth {:trigger Looking(depth)} :: Looking(depth) && depth == 1 ==>
      after.incidents == db.incidents + alerts && NodeErrors(after.notices) == NodeErrors(db.notices) + alerts
  }

  lemma {:induction false} OneMoreNotice(notices: seq<Notice>, notice: Notice)
    ensures NodeErrors(notices + [notice]) == NodeErrors(notices) + if notice.NodeError? then [notice.alert] else []
  {
    assert (notices + [notice])[..|notices|] == notices;
  }

  lemma {:induction false} RecordsJoin(a: Db, b: Db, c: Db, some: seq<NodeAlert>, more: seq<NodeAlert>)
    requires OnRecord(a, b, some) && OnRecord(b, c, more)
    ensures OnRecord(a, c, some + more)
  {
    assert Looking(1);
  }

  lemma {:induction false} SavingRecordsNone(db: Db, findings: seq<Finding>)
    ensures OnRecord(db, SaveFindings(db, findings), [])
  {
    var after := SaveFindings(db, findings);
    if |after.notices| > |db.notices| {
      OneMoreNotice(db.notices, after.notices[|db.notices|]);
    }
  }

  function AlertsOf(results: seq<Result>): seq<NodeAlert> {
    if results == [] then [] else AlertsOf(results[..|results| - 1]) + results[|results| - 1].alerts
  }

  lemma {:induction false} NoRecord(db: Db, after: Db)
    requires after.incidents == db.incidents && after.notices == db.notices
    ensures OnRecord(db, after, [])
  {}

  lemma {:induction false} FailuresRecordNone(db: Db, id: int, failures: seq<Failure>, at: Time)
    ensures OnRecord(db, Played(db, FailureTasks(id, failures), at), [])
  {
    if failures == [] {
      NoRecord(db, db);
    } else {
      var n := |failures| - 1;
      var before := Played(db, FailureTasks(id, failures[..n]), at);
      FailuresRecordNone(db, id, failures[..n], at);
      PlayedJoins(db, FailureTasks(id, failures[..n]), FailureStep(id, failures[n]), at);
      FailureStepIsPlayed(before, id, failures[n], at);
      NoRecord(before, Played(before, FailureStep(id, failures[n]), at));
      RecordsJoin(db, before, Played(before, FailureStep(id, failures[n]), at), [], []);
    }
  }

  lemma {:induction false} AlertIsNoted(db: Db, alert: NodeAlert, at: Time)
    ensures OnRecord(db, Played(db, [Incident(alert), NodeEvent(alert)], at), [alert])
  {
    TwoTasks(db, Incident(alert), NodeEvent(alert), at);
    OneMoreNotice(db.notices, NodeError(alert));
  }

  lemma {:induction false} AlertsAreNoted(db: Db, alerts: seq<NodeAlert>, at: Time)
    ensures OnRecord(db, Played(db, AlertTasks(alerts), at), alerts)
  {
    if alerts == [] {
      NoRecord(db, db);
    } else {
      var n := |alerts| - 1;
      var before, pair := Played(db, AlertTasks(alerts[..n]), at), [Incident(alerts[n]), NodeEvent(alerts[n])];
      AlertsAreNoted(db, alerts[..n], at);
      PlayedJoins(db, AlertTasks(alerts[..n]), pair, at);
      AlertIsNoted(before, alerts[n], at);
      RecordsJoin(db, before, Played(before, pair, at), alerts[..n], [alerts[n]]);
      assert alerts == alerts[..n] + [alerts[n]];
    }
  }

  lemma {:induction false} ResultIsRecorded(db: Db, r: Result, at: Time)
    ensures OnRecord(db, Played(db, ResultTasks(r), at), r.alerts)
  {
    var failures, alerts := FailureTasks(r.address.id, r.errors), AlertTasks(r.alerts);
    var a := Played(db, failures, at);
    var b := Played(a, alerts, at);
    PlayedJoins(db, failures, alerts, at);
    PlayedJoins(db, failures + alerts, [Save(r.findings)], at);
    OneTask(b, Save(r.findings), at);
    FailuresRecordNone(db, r.address.id, r.errors, at);
    AlertsAreNoted(a, r.alerts, at);
    SavingRecordsNone(b, r.findings);
    RecordsJoin(db, a, b, [], r.alerts);
    RecordsJoin(db, b, SaveFindings(b, r.findings), [] + r.alerts, []);
    assert [] + r.alerts + [] == r.alerts;
  }

  lemma {:induction false} AlertsAreRecorded(db: Db, results: seq<Result>, at: Time)
    ensures OnRecord(db, Played(db, Tasks(results), at), AlertsOf(results))
  {
    if results == [] {
      NoRecord(db, db);
    } else {
      var n := |results| - 1;
      var before := Played(db, Tasks(results[..n]), at);
      AlertsAreRecorded(db, results[..n], at);
      PlayedJoins(db, Tasks(results[..n]), ResultTasks(results[n]), at);
      ResultIsRecorded(before, results[n], at);
      RecordsJoin(db, before, Played(before, ResultTasks(results[n]), at), AlertsOf(results[..n]), results[n].alerts);
    }
  }
}
