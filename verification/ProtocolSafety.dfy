// What holds of the tables after any run of the system, whatever the interleaving and the crashes.
module ProtocolSafety {
  import opened Domain
  import opened Results
  import opened Tables
  import opened Protocol
  import opened ProtocolInvariant
  import opened ProtocolPast
  import opened ProtocolSteps
  import H = Health
  import PoolRuns

  predicate TouchesRuns(e: Event) { e.Resume? || e.Create? || e.Complete? || e.Pause? || e.Advance? }

  lemma {:induction false} ExternalKeepsInv(w: World, e: Event)
    requires Inv(w) && Enabled(w, e) && e.External()
    ensures Inv(Apply(w, e))
  {
    match e {
      case Import(rows) => ImportKeepsInv(w, rows);
      case RolledBack(count) => RollbackKeepsInv(w, count);
      case Sweep(cutoff, limit) => SweepKeepsInv(w, cutoff, limit);
      case Tool(task, at) => ToolKeepsInv(w, task, at);
    }
  }

  lemma {:induction false} RunsEventKeepsInv(w: World, e: Event)
    requires Inv(w) && Enabled(w, e) && TouchesRuns(e)
    ensures Inv(Apply(w, e))
  {
    match e {
      case Resume => ResumeKeepsInv(w);
      case Create => CreateKeepsInv(w);
      case Complete(now) => CompleteKeepsInv(w, now);
      case Pause => PauseKeepsInv(w);
      case Advance => AdvanceKeepsInv(w);
    }
  }

  lemma {:induction false} StepKeepsInv(w: World, e: Event)
    requires Inv(w) && Enabled(w, e)
    ensures Inv(Apply(w, e))
  {
    if e.External() {
      ExternalKeepsInv(w, e);
    } else if TouchesRuns(e) {
      RunsEventKeepsInv(w, e);
    } else {
      match e {
        case Crash => CrashKeepsInv(w);
        case Begin(_, _, _) => BeginKeepsInv(w, e);
        case Plan => PlanKeepsInv(w);
        case Fetch(limit) => FetchKeepsInv(w, limit);
        case Probe(results, health) => ProbeKeepsInv(w, results, health);
        case Write(now) => WriteKeepsInv(w, now);
      }
    }
  }

  lemma {:induction false} EveryRunKeepsInv(events: seq<Event>)
    requires Possible(GENESIS, events)
    ensures Inv(End(GENESIS, events))
  {
    if events != [] {
      var n := |events| - 1;
      EveryRunKeepsInv(events[..n]);
      StepKeepsInv(End(GENESIS, events[..n]), events[n]);
    }
  }

  // Cleanup safety: a deleted address had a non-positive balance on every chain of its type,
  // in a batch counted by a run that has completed.
  lemma {:induction false} DeletedAddressWasEmpty(events: seq<Event>, id: int) returns (run: nat, k: nat)
    requires Possible(GENESIS, events)
    requires id in End(GENESIS, events).deleted
    ensures var w := End(GENESIS, events);
            && run < |w.db.runs| && run < |w.ledgers| && k < |w.ledgers[run]|
            && w.db.runs[run].status.Completed? && w.db.runs[run].Covers(id)
            && var entry := w.ledgers[run][k];
            && entry.id == id && entry.kind == w.deleted[id].kind
            && |entry.answers| == |ChainsFor(w.deleted[id].kind)|
            && forall c :: 0 <= c < |entry.answers| ==> entry.answers[c].Balance? && entry.answers[c].atomic <= 0
  {
    EveryRunKeepsInv(events);
    var w := End(GENESIS, events);
    OpenPast(w.db, w.ledgers, w.deleted);
    assert Vindicated(w.db.runs, w.ledgers, id, w.deleted[id].kind);
    run, k :| run < |w.ledgers| && run < |w.db.runs| && k < |w.ledgers[run]|
      && w.db.runs[run].status.Completed?
      && w.ledgers[run][k].id == id && w.ledgers[run][k].kind == w.deleted[id].kind
      && Answered(w.ledgers[run][k]) && Empty(w.ledgers[run][k]);
    assert LedgerOk(w.db, w.deleted, w.db.runs[run], w.ledgers[run]);
    assert EntryOk(w.db, w.deleted, w.db.runs[run], w.ledgers[run][k]);
    assert RunOk(w.db, w.db.runs[run]);
  }

  // An address with an error or a positive balance among its counted answers keeps its row,
  // has a blocking row, and can never be chosen by the cleaner.
  lemma {:induction false} ErrorsAndPositivesBlockCleanup(events: seq<Event>, run: nat, k: nat, c: nat, cutoff: Time)
    requires Possible(GENESIS, events)
    requires run < |End(GENESIS, events).ledgers| && k < |End(GENESIS, events).ledgers[run]|
    requires c < |End(GENESIS, events).ledgers[run][k].answers|
    requires var answer := End(GENESIS, events).ledgers[run][k].answers[c]; !answer.Balance? || answer.atomic > 0
    ensures var w := End(GENESIS, events);
            var entry := w.ledgers[run][k];
            && entry.id in w.db.rows && entry.id !in w.deleted && c < |ChainsFor(entry.kind)|
            && !Eligible(w.db, cutoff, entry.id)
            && (if entry.answers[c].Balance? then Key(entry.id, entry.answers[c].chain) in w.db.findings
                else Key(entry.id, ChainsFor(entry.kind)[c]) in w.db.retries)
  {
    EveryRunKeepsInv(events);
    var w := End(GENESIS, events);
    OpenPast(w.db, w.ledgers, w.deleted);
    assert LedgerOk(w.db, w.deleted, w.db.runs[run], w.ledgers[run]);
    assert EntryOk(w.db, w.deleted, w.db.runs[run], w.ledgers[run][k]) && Blocked(w.db, w.ledgers[run][k]);
  }

  // Runs partition the id space, one at most is active, and every row has its place.
  lemma {:induction false} RunsPartitionIds(events: seq<Event>, id: int)
    requires Possible(GENESIS, events)
    ensures var runs := End(GENESIS, events).db.runs;
            && (forall i, j :: 0 <= i < j < |runs| ==>
                  runs[i].start <= runs[i].end < runs[j].start <= runs[j].end && runs[i].status.Completed?)
            && (forall i :: 0 <= i < |runs| ==> runs[i].start - 1 <= runs[i].cursor <= runs[i].end)
            && (id in End(GENESIS, events).db.rows ==>
                  || (exists i :: 0 <= i < |runs| && runs[i].Covers(id))
                  || (forall i :: 0 <= i < |runs| ==> runs[i].end < id))
  {
    EveryRunKeepsInv(events);
    var w := End(GENESIS, events);
    OpenPast(w.db, w.ledgers, w.deleted);
    forall i | 0 <= i < |w.db.runs| ensures RunOk(w.db, w.db.runs[i]) {}
    if id in w.db.rows { assert Placed(w.db, id); }
  }

  lemma {:induction false} ImportKeepsRuns(db: Db, rows: seq<Row>)
    ensures InsertAll(db, rows).0.runs == db.runs
  {
    if rows != [] { ImportKeepsRuns(db, rows[..|rows| - 1]); }
  }

  lemma {:induction false} OtherEventsKeepRuns(w: World, e: Event)
    requires Enabled(w, e) && !TouchesRuns(e)
    ensures Apply(w, e).db.runs == w.db.runs
  {
    if e.Import? { ImportKeepsRuns(w.db, e.rows); }
  }

  lemma {:induction false} AdvanceMovesForward(w: World)
    requires ProcOk(w.db, w.proc) && Enabled(w, Advance)
    ensures w.proc.cursor < w.proc.batch[|w.proc.batch| - 1].id <= w.proc.end
    ensures w.db.runs[w.proc.run].status.Running?
    ensures w.db.runs[w.proc.run].cursor == w.proc.cursor && w.db.runs[w.proc.run].end == w.proc.end
  {}

  lemma {:induction false} StatusEventsKeepCursors(w: World, e: Event, i: nat)
    requires ProcOk(w.db, w.proc) && Enabled(w, e) && (e.Resume? || e.Complete? || e.Pause?) && i < |w.db.runs|
    ensures i < |Apply(w, e).db.runs|
    ensures var before, after := w.db.runs[i], Apply(w, e).db.runs[i];
            && after.start == before.start && after.end == before.end && after.cursor == before.cursor
            && (before.status.Completed? ==> after == before)
  {}

  // One step never moves a cursor back, never changes a range and never reopens a completed run.
  lemma {:induction false} CursorNeverMovesBack(w: World, e: Event, i: nat)
    requires Inv(w) && Enabled(w, e) && i < |w.db.runs|
    ensures i < |Apply(w, e).db.runs|
    ensures var before, after := w.db.runs[i], Apply(w, e).db.runs[i];
            && after.start == before.start && after.end == before.end
            && before.cursor <= after.cursor <= before.end
            && (before.status.Completed? ==> after == before)
            && (before.cursor < after.cursor ==> e.Advance?)
  {
    assert RunOk(w.db, w.db.runs[i]) by { OpenPast(w.db, w.ledgers, w.deleted); }
    if e.Advance? {
      AdvanceMovesForward(w);
      AdvanceEffect(w);
    } else if !TouchesRuns(e) {
      OtherEventsKeepRuns(w, e);
    } else if !e.Create? {
      StatusEventsKeepCursors(w, e, i);
    }
  }

  // Foreign keys never reject a write of the scanner, and a batch can always be checked to its end:
  // the scanner's program has an enabled next event in every reachable state.
  lemma {:induction false} ScannerIsNeverBlocked(events: seq<Event>) returns (e: Event)
    requires Possible(GENESIS, events)
    ensures Enabled(End(GENESIS, events), e) && !e.External() && !e.Crash?
  {
    EveryRunKeepsInv(events);
    e := NextEvent(End(GENESIS, events));
  }

  lemma {:induction false} NextEvent(w: World) returns (e: Event)
    requires Inv(w)
    ensures Enabled(w, e) && !e.External() && !e.Crash?
  {
    match w.proc {
      case Idle => e := Begin(BLANK.setup, BLANK.width, map[]);
      case Resuming(_, _, _) => e := Resume;
      case Planning => e := Plan;
      case Planned(_, _) => e := Create;
      case Fetching(_, _, _) => e := Fetch(1);
      case Completing(_) => e := Complete(0);
      case Probing(_, _, _, batch) =>
        var results, health := PoolRuns.SomeOutcome(w.mind.setup, batch, w.mind.width, w.mind.health);
        e := Probe(results, health);
      case Writing(_, _, _, _, _, _, _) => e := NextWriteEvent(w);
    }
  }

  lemma {:induction false} NextWriteEvent(w: World) returns (e: Event)
    requires Inv(w) && w.proc.Writing?
    ensures Enabled(w, e) && (e.Write? || e.Pause? || e.Advance?)
  {
    if w.proc.next < |w.proc.tasks| {
      NextWriteIsPermitted(w);
      e := Write(0);
    } else if Pausing(w.proc.results) {
      e := Pause;
    } else {
      assert |w.ledgers| == |w.db.runs| by { OpenPast(w.db, w.ledgers, w.deleted); }
      e := Advance;
    }
  }

  lemma {:induction false} NextWriteIsPermitted(w: World)
    requires Inv(w) && w.proc.Writing? && w.proc.next < |w.proc.tasks|
    ensures Permitted(w.db, w.proc.tasks[w.proc.next])
  {
    var k := TaskComesFrom(w.proc.results, w.proc.next);
    var result := w.proc.results[k];
    ResultsAreFromBatch(w.proc.batch, w.proc.results);
    BatchBounds(w.db, w.proc.cursor, w.proc.end, w.proc.batch, result.address);
    assert FullyAnswered(result);
    forall f | f in result.findings ensures f.id == result.address.id && f.atomic > 0 {
      FindingsArePositive(result.address.id, result.answers, f);
    }
  }

  // Every write of a batch concerns the address of one of its results.
  ghost predicate Concerns(task: Task, result: Result) {
    match task
    case Record(id, _) => id == result.address.id
    case Save(findings) => findings == result.findings
    case _ => true
  }

  lemma {:induction false} FailureTasksConcern(id: int, failures: seq<Failure>, j: nat)
    requires j < |FailureTasks(id, failures)|
    ensures var task := FailureTasks(id, failures)[j]; task.Close? || (task.Record? && task.id == id)
  {
    var n := |failures| - 1;
    if j < |FailureTasks(id, failures[..n])| { FailureTasksConcern(id, failures[..n], j); }
  }

  lemma {:induction false} AlertTasksConcern(alerts: seq<NodeAlert>, j: nat)
    requires j < |AlertTasks(alerts)|
    ensures AlertTasks(alerts)[j].Incident? || AlertTasks(alerts)[j].NodeEvent?
  {
    var n := |alerts| - 1;
    if j < |AlertTasks(alerts[..n])| { AlertTasksConcern(alerts[..n], j); }
  }

  lemma {:induction false} TaskComesFrom(results: seq<Result>, j: nat) returns (k: nat)
    requires j < |Tasks(results)|
    ensures k < |results| && Concerns(Tasks(results)[j], results[k])
  {
    var n := |results| - 1;
    var earlier := |Tasks(results[..n])|;
    if j < earlier {
      k := TaskComesFrom(results[..n], j);
    } else {
      k := n;
      var failures := FailureTasks(results[n].address.id, results[n].errors);
      var alerts := AlertTasks(results[n].alerts);
      if j - earlier < |failures| {
        FailureTasksConcern(results[n].address.id, results[n].errors, j - earlier);
      } else if j - earlier < |failures| + |alerts| {
        AlertTasksConcern(results[n].alerts, j - earlier - |failures|);
      }
    }
  }

  // Health over whole runs.

  lemma {:induction false} PrefixIsPossible(events: seq<Event>, j: nat)
    requires Possible(GENESIS, events) && j <= |events|
    ensures Possible(GENESIS, events[..j])
    ensures j < |events| ==> Enabled(End(GENESIS, events[..j]), events[j])
  {
    var n := |events| - 1;
    if j <= n {
      PrefixIsPossible(events[..n], j);
      assert events[..n][..j] == events[..j];
    } else {
      assert events[..j] == events;
    }
  }

  // The health book of the scanner that began last.
  function BookAtStart(events: seq<Event>): H.Book {
    if events == [] then map[]
    else
      var last := events[|events| - 1];
      if last.Begin? then last.health else BookAtStart(events[..|events| - 1])
  }

  lemma {:induction false} SickAtStart(events: seq<Event>)
    requires Possible(GENESIS, events) && !End(GENESIS, events).proc.Idle?
    ensures End(GENESIS, events).mind.sick == H.Unhealthy(BookAtStart(events))
  {
    var n := |events| - 1;
    var w := End(GENESIS, events[..n]);
    if !events[n].Begin? {
      EveryRunKeepsInv(events[..n]);
      OnlyBeginStarts(w, events[n]);
      SickAtStart(events[..n]);
    }
  }

  // Between its beginning and its end a run keeps what it knew at its beginning.
  lemma {:induction false} OnlyBeginStarts(w: World, e: Event)
    requires Enabled(w, e) && !e.Begin? && !Apply(w, e).proc.Idle?
    ensures !w.proc.Idle? && Apply(w, e).mind.sick == w.mind.sick
  {}

  // Every run is begun by a scanner that has seen no failure yet.
  ghost predicate FreshStarts(events: seq<Event>) {
    forall k :: 0 <= k < |events| && events[k].Begin? ==> events[k].health == map[]
  }

  lemma {:induction false} FreshBook(events: seq<Event>)
    requires FreshStarts(events)
    ensures BookAtStart(events) == map[]
  {
    if events != [] { FreshBook(events[..|events| - 1]); }
  }

  // Wherever a cursor moves, no chain is unhealthy that was not so when the run began; with a fresh scanner
  // for every run, no chain at all. So a batch that leaves a chain newly unhealthy is never counted.
  lemma {:induction false} NoAdvanceWhileSick(events: seq<Event>, j: nat)
    requires Possible(GENESIS, events) && j < |events| && events[j].Advance?
    ensures Possible(GENESIS, events[..j])
    ensures var book := End(GENESIS, events[..j]).mind.health;
            && H.Unhealthy(book) <= H.Unhealthy(BookAtStart(events[..j]))
            && (FreshStarts(events) ==> H.Unhealthy(book) == {})
  {
    PrefixIsPossible(events, j);
    EveryRunKeepsInv(events[..j]);
    SickAtStart(events[..j]);
    if FreshStarts(events) { FreshBook(events[..j]); }
  }
}
