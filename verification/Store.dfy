// The store as the processes see it: each method is one atomic statement or transaction.
// Before a method acts, the other processes may have acted any number of times; any call may fail,
// with or without having taken effect. Failed calls are counted, so that a program that reports one has met one.
module Store {
  import opened Domain
  import opened Results
  import opened Tables
  import opened Protocol
  import opened ProtocolInvariant
  import opened ProtocolMoves
  import opened ProtocolSafety
  import opened ProtocolCoverage
  import H = Health
  import Pool
  import PoolRuns

  // The new events are all external.
  ghost predicate Waited(before: seq<Event>, after: seq<Event>) {
    before <= after && forall k :: |before| <= k < |after| ==> after[k].External()
  }

  // The new events are external ones followed by e.
  ghost predicate Took(before: seq<Event>, after: seq<Event>, e: Event) {
    && before < after
    && (forall k :: |before| <= k < |after| - 1 ==> after[k].External())
    && after[|after| - 1] == e
  }

  // The scanner lost the call: it crashed after external events and, possibly, the effect of e.
  ghost predicate Lost(before: seq<Event>, after: seq<Event>, e: Event) {
    && before < after && after[|after| - 1] == Crash
    && (Took(before, after, Crash) || Took(before, after[..|after| - 1], e))
  }

  lemma {:induction false} TookExtends(events: seq<Event>, e: Event)
    requires Possible(GENESIS, events) && Enabled(End(GENESIS, events), e)
    ensures Possible(GENESIS, events + [e]) && End(GENESIS, events + [e]) == Apply(End(GENESIS, events), e)
  {
    assert (events + [e])[..|events|] == events;
  }

  // The history of a store, folded.
  ghost predicate Explains(trace: seq<Event>, w: World) {
    forall depth {:trigger Looking(depth)} :: Looking(depth) ==> Possible(GENESIS, trace) && End(GENESIS, trace) == w
  }

  lemma {:induction false} Explained(trace: seq<Event>, w: World)
    requires Explains(trace, w)
    ensures Possible(GENESIS, trace) && End(GENESIS, trace) == w && Inv(w)
  {
    assert Looking(0);
    EveryRunKeepsInv(trace);
  }

  lemma {:induction false} ExplainsNext(trace: seq<Event>, w: World, e: Event, next: World)
    requires Explains(trace, w) && Leads(w, e, next)
    ensures Explains(trace + [e], next)
  {
    OpenLeads(w, e, next);
    Explained(trace, w);
    TookExtends(trace, e);
  }

  lemma {:induction false} InsertsOneMore(before: Db, inputs: seq<Row>, i: nat)
    requires i < |inputs| && IdsOk(InsertAll(before, inputs[..i]).0)
    ensures var (db, ids) := InsertAll(before, inputs[..i]);
            var (after, id) := Insert(db, inputs[i]);
            && InsertAll(before, inputs[..i + 1]) == (after, ids + [id]) && IdsOk(after)
            && |after.rows| == |db.rows| + if inputs[i].Key() in db.index then 0 else 1
  {
    assert inputs[..i + 1][..i] == inputs[..i];
    InsertCounts(InsertAll(before, inputs[..i]).0, inputs[i]);
  }

  class Store {
    var nextId: nat
    var rows: map<int, Row>
    var index: map<Identity, int>
    var runs: seq<Run>
    var nextRetry: nat
    var retries: map<Key, Retry>
    var findings: map<Key, Stored>
    var notices: seq<Notice>
    var incidents: seq<NodeAlert>
    ghost var proc: Proc
    ghost var mind: Mind
    ghost var ledgers: seq<Ledger>
    ghost var deleted: map<int, Row>
    ghost var trace: seq<Event>
    ghost var failures: nat

    function State(): Db
      reads this
    {
      Db(nextId, rows, index, runs, nextRetry, retries, findings, notices, incidents)
    }

    ghost function Now(): World
      reads this
    {
      World(State(), proc, mind, ledgers, deleted)
    }

    // The tables are what some run of the system leads to.
    ghost predicate Valid()
      reads this
    {
      Explains(trace, Now())
    }

    constructor ()
      ensures Valid() && trace == [] && State() == EMPTY && proc.Idle?
    {
      nextId, rows, index, runs := 1, map[], map[], [];
      nextRetry, retries, findings := 1, map[], map[];
      notices, incidents := [], [];
      proc, mind, ledgers, deleted, trace, failures := Idle, BLANK, [], map[], [], 0;
    }

    lemma {:induction false} Safe()
      requires Valid()
      ensures Inv(Now())
    {
      Explained(trace, Now());
    }

    // What was stored at an earlier point of the history is stored still or has been deleted.
    lemma {:induction false} NothingVanishes(before: seq<Event>, w: World)
      requires Valid() && Explains(before, w) && before <= trace
      ensures EverStored(w) <= EverStored(Now())
    {
      Explained(trace, Now());
      Explained(before, w);
      assert trace[..|before|] == before;
      StoredStays(trace, |before|);
    }

    // The range planned now, seen from an earlier point of the history.
    lemma {:induction false} PlanFits(before: seq<Event>, w: World, range: Option<(int, int)>)
      requires Valid() && proc.Planning? && range == Tables.UnscannedRange(State())
      requires Explains(before, w) && before <= trace
      ensures range.None? ==> forall id :: id in rows ==> Scanned(Now(), id)
      ensures range.Some? ==> CoversAllAbove(State(), range.value.0, range.value.1)
      ensures range.Some? ==> forall id :: id in EverStored(w) ==> id <= range.value.1
    {
      Safe();
      NothingVanishes(before, w);
      PlanIsComplete(Now());
      if range.None? {
        forall id | id in rows ensures Scanned(Now(), id) { NothingAboveIsAllScanned(Now(), id); }
      } else {
        forall id | id in EverStored(w) ensures id <= range.value.1 {
          PlanEndsBeyond(Now(), range.value.0, range.value.1, id);
        }
      }
    }

    lemma {:induction false} CompletedMeansScanned()
      requires Valid() && AllCompleted(State())
      ensures forall id :: id in EverStored(Now()) && !Above(runs, id) ==> Scanned(Now(), id)
    {
      Safe();
      forall id | id in EverStored(Now()) && !Above(runs, id) ensures Scanned(Now(), id) {
        var i :| 0 <= i < |runs| && id <= runs[i].end;
        EverythingBelowIsScanned(Now(), i, id);
      }
    }

    // Once all runs are completed, every address there was when the last one was planned has been scanned.
    lemma {:induction false} CompletedIsThorough() returns (j: nat)
      requires Valid() && runs != [] && AllCompleted(State())
      ensures Possible(GENESIS, trace) && RunPlannedAt(trace, j, |runs| - 1)
      ensures forall id :: id in EverStored(End(GENESIS, trace[..j])) ==> Scanned(Now(), id)
    {
      Explained(trace, Now());
      j := EveryPlannedAddressIsScanned(trace, |runs| - 1);
    }

    // Every batch that was ever counted left no chain newly unhealthy.
    lemma {:induction false} CountedWhileHealthy(j: nat)
      requires Valid() && j < |trace| && trace[j].Advance?
      ensures Possible(GENESIS, trace[..j])
      ensures H.Unhealthy(End(GENESIS, trace[..j]).mind.health) <= H.Unhealthy(BookAtStart(trace[..j]))
      ensures FreshStarts(trace) ==> H.Unhealthy(End(GENESIS, trace[..j]).mind.health) == {}
    {
      Explained(trace, Now());
      NoAdvanceWhileSick(trace, j);
    }

    method Load(db: Db)
      modifies this`nextId, this`rows, this`index, this`runs, this`nextRetry, this`retries,
               this`findings, this`notices, this`incidents
      ensures State() == db
    {
      nextId, rows, index, runs := db.nextId, db.rows, db.index, db.runs;
      nextRetry, retries, findings := db.nextRetry, db.retries, db.findings;
      notices, incidents := db.notices, db.incidents;
    }

    // Makes one event happen, given the world it leads to.
    method Perform(ghost e: Event, db: Db, ghost next: World)
      requires Valid() && Leads(Now(), e, next) && db == next.db
      modifies this
      ensures Valid() && trace == old(trace) + [e] && Now() == next && failures == old(failures)
    {
      ExplainsNext(trace, Now(), e, next);
      Load(db);
      proc, mind, ledgers, deleted := next.proc, next.mind, next.ledgers, next.deleted;
      trace := trace + [e];
      assert Now() == next;
    }

    // A step of another process, if it can be taken.
    method Step(e: Event)
      requires Valid() && e.External()
      modifies this
      ensures Valid() && proc == old(proc) && mind == old(mind) && failures == old(failures)
      ensures runs == old(runs) && (trace == old(trace) || trace == old(trace) + [e])
    {
      ghost var w := Now();
      match e {
        case Import(inputs) =>
          ImportLeads(w, inputs);
          ImportKeepsRuns(w.db, inputs);
          Perform(e, InsertAll(State(), inputs).0, w.(db := InsertAll(w.db, inputs).0));
        case RolledBack(count) =>
          RolledBackLeads(w, count);
          Perform(e, State().(nextId := nextId + count), w.(db := w.db.(nextId := w.db.nextId + count)));
        case Sweep(cutoff, limit) =>
          SweepLeads(w, cutoff, limit);
          Perform(e, Clean(State(), cutoff, limit), AfterSweep(w, cutoff, limit));
        case Tool(task, at) =>
          if Permitted(State(), task) {
            ToolLeads(w, task, at);
            Perform(e, Execute(State(), task, at), w.(db := Execute(w.db, task, at)));
          }
      }
    }

    // Any number of steps of other processes.
    method Interleave()
      requires Valid()
      modifies this
      ensures Valid() && proc == old(proc) && mind == old(mind) && failures == old(failures)
      ensures runs == old(runs) && Waited(old(trace), trace)
    {
      var steps: nat := *;
      while steps > 0
        invariant Valid() && proc == old(proc) && mind == old(mind) && failures == old(failures)
        invariant runs == old(runs) && Waited(old(trace), trace)
      {
        var e: Event := *;
        if e.External() {
          Step(e);
        }
        steps := steps - 1;
      }
    }

    // One call of the scanner whose effect is e, subject to failure.
    method Attempt(ghost before: seq<Event>, ghost e: Event, db: Db, ghost next: World) returns (ok: bool)
      requires Valid() && Leads(Now(), e, next) && db == next.db && Waited(before, trace)
      modifies this
      ensures Valid()
      ensures ok ==> Took(before, trace, e) && Now() == next
      ensures !ok ==> Lost(before, trace, e) && proc.Idle?
      ensures ok <==> failures == old(failures)
    {
      var fate: Fate := *;
      match fate {
        case Made =>
          Perform(e, db, next);
          ok := true;
        case MadeUnseen =>
          Perform(e, db, next);
          ghost var seen := trace;
          Die();
          assert trace[..|trace| - 1] == seen;
          ok := false;
        case NotMade =>
          Die();
          ok := false;
      }
      if !ok { failures := failures + 1; }
    }

    // The process is lost; the tables stay.
    method Die()
      requires Valid()
      modifies this
      ensures Valid() && trace == old(trace) + [Crash] && proc.Idle? && failures == old(failures)
    {
      CrashLeads(Now());
      Perform(Crash, State(), Now().(proc := Idle, mind := BLANK));
    }

    // The calls of the scanner.

    // The first call of a scanner, which brings its configuration and its health book.
    method ActiveScan(ghost setup: Pool.Setup, ghost width: nat, ghost health: H.Book)
      returns (ok: bool, active: Option<nat>, run: Run)
      requires Valid() && proc.Idle? && Pool.ValidSetup(setup) && width >= 1
      modifies this
      ensures Valid()
      ensures ok ==> Took(old(trace), trace, Begin(setup, width, health))
      ensures ok ==> mind == Mind(setup, width, health, H.Unhealthy(health))
      ensures !ok ==> Lost(old(trace), trace, Begin(setup, width, health)) && proc.Idle?
      ensures ok <==> failures == old(failures)
      ensures ok ==> (active.None? <==> AllCompleted(old(State())))
      ensures ok && active.None? ==> proc.Planning?
      ensures ok && active.Some? ==>
                proc == if run.status.Paused? then Resuming(active.value, run.cursor, run.end)
                        else Fetching(active.value, run.cursor, run.end)
    {
      Interleave();
      active := Tables.ActiveScan(runs);
      run := if active.Some? then runs[active.value] else Run(0, 0, 0, Running, 0, 0, 0, 0, 0);
      BeginLeads(Now(), setup, width, health);
      ok := Attempt(old(trace), Begin(setup, width, health), State(),
                    Now().(proc := FirstStep(runs), mind := Mind(setup, width, health, H.Unhealthy(health))));
    }

    method ResumeScan(run: nat) returns (ok: bool)
      requires Valid() && proc.Resuming? && proc.run == run
      modifies this
      ensures Valid()
      ensures ok ==> Took(old(trace), trace, Resume) && mind == old(mind)
      ensures ok ==> proc == Fetching(run, old(proc).cursor, old(proc).end)
      ensures !ok ==> Lost(old(trace), trace, Resume) && proc.Idle?
      ensures ok <==> failures == old(failures)
    {
      Interleave();
      assert run < |runs| by { Safe(); ResumingRunExists(Now()); }
      ResumeLeads(Now());
      var resumed := SetStatus(State(), run, Paused, Running, 0);
      ok := Attempt(old(trace), Resume, resumed, Now().(db := resumed, proc := Fetching(run, proc.cursor, proc.end)));
    }

    method UnscannedRange() returns (ok: bool, range: Option<(int, int)>)
      requires Valid() && proc.Planning?
      modifies this
      ensures Valid()
      ensures ok ==> Took(old(trace), trace, Plan) && mind == old(mind)
      ensures ok ==> proc == if range.Some? then Planned(range.value.0, range.value.1) else Idle
      ensures ok && range.None? ==> forall id :: id in rows ==> Scanned(Now(), id)
      ensures ok && range.Some? ==> CoversAllAbove(State(), range.value.0, range.value.1)
      ensures ok && range.Some? ==> forall id :: id in EverStored(old(Now())) ==> id <= range.value.1
      ensures !ok ==> Lost(old(trace), trace, Plan) && proc.Idle?
      ensures ok <==> failures == old(failures)
    {
      Interleave();
      range := Tables.UnscannedRange(State());
      PlanLeads(Now());
      ghost var before := Now();
      PlanFits(old(trace), old(Now()), range);
      ok := Attempt(old(trace), Plan, State(),
                    Now().(proc := if range.Some? then Planned(range.value.0, range.value.1) else Idle));
      assert ok ==> State() == before.db && ledgers == before.ledgers;
    }

    method CreateScan(start: int, end: int) returns (ok: bool, run: nat)
      requires Valid() && proc == Planned(start, end)
      modifies this
      ensures Valid()
      ensures ok ==> Took(old(trace), trace, Create) && mind == old(mind) && proc == Fetching(run, start - 1, end)
      ensures !ok ==> Lost(old(trace), trace, Create) && proc.Idle?
      ensures ok <==> failures == old(failures)
    {
      Interleave();
      run := |runs|;
      CreateLeads(Now());
      var created := Tables.CreateScan(State(), start, end);
      ok := Attempt(old(trace), Create, created,
                    Now().(db := created, ledgers := ledgers + [[]], proc := Fetching(run, start - 1, end)));
    }

    method NextAddresses(run: nat, cursor: int, end: int, limit: nat) returns (ok: bool, batch: seq<Address>)
      requires Valid() && proc == Fetching(run, cursor, end) && limit >= 1
      modifies this
      ensures Valid()
      ensures ok ==> Took(old(trace), trace, Fetch(limit)) && mind == old(mind)
      ensures ok ==> proc == if batch == [] then Completing(run) else Probing(run, cursor, end, batch)
      ensures !ok ==> Lost(old(trace), trace, Fetch(limit)) && proc.Idle?
      ensures ok <==> failures == old(failures)
      ensures ok && batch != [] ==> cursor < batch[|batch| - 1].id <= end
      ensures ok ==> run < |runs| && runs[run].end == end
    {
      Interleave();
      batch := Tables.NextAddresses(State(), cursor, end, limit);
      FetchedBatchIsOk(State(), cursor, end, limit);
      assert run < |runs| && runs[run].end == end by { Safe(); }
      FetchLeads(Now(), limit);
      ok := Attempt(old(trace), Fetch(limit), State(),
                    Now().(proc := if batch == [] then Completing(run) else Probing(run, cursor, end, batch)));
    }

    method CompleteScan(run: nat, now: Time) returns (ok: bool)
      requires Valid() && proc == Completing(run)
      modifies this
      ensures Valid() && proc.Idle?
      ensures ok ==> Took(old(trace), trace, Complete(now)) && AllCompleted(State())
      ensures ok ==> run < |runs| == |old(runs)| && runs[run].end == old(runs)[run].end
      ensures !ok ==> Lost(old(trace), trace, Complete(now))
      ensures ok <==> failures == old(failures)
    {
      Interleave();
      assert run < |runs| && AllCompleted(SetStatus(State(), run, Running, Completed, now)) by {
        Safe();
        CompletingLeavesNone(Now(), now);
      }
      CompleteLeads(Now(), now);
      var completed := SetStatus(State(), run, Running, Completed, now);
      ok := Attempt(old(trace), Complete(now), completed, Now().(db := completed, proc := Idle));
    }

    // The batch has been checked; the tables are not touched.
    method Probed(results: seq<Result>, ghost health: H.Book)
      requires Valid() && proc.Probing?
      requires PoolRuns.Outcome(mind.setup, proc.batch, mind.width, mind.health, results, health)
      modifies this
      ensures Valid() && Took(old(trace), trace, Probe(results, health)) && mind == old(mind).(health := health)
      ensures failures == old(failures)
      ensures proc == Writing(old(proc).run, old(proc).cursor, old(proc).end, old(proc).batch,
                              results, Tasks(results), 0)
    {
      ProbeLeads(Now(), results, health);
      Perform(Probe(results, health), State(),
              Now().(proc := Writing(proc.run, proc.cursor, proc.end, proc.batch, results, Tasks(results), 0),
                     mind := mind.(health := health)));
    }

    ghost predicate Due(task: Task)
      reads this
    {
      proc.Writing? && proc.next < |proc.tasks| && proc.tasks[proc.next] == task
    }

    // Makes the due write of the batch.
    method Commit(ghost before: seq<Event>, ghost task: Task, ghost now: Time, db: Db) returns (ok: bool)
      requires Valid() && Due(task) && Waited(before, trace) && db == Execute(State(), task, RetryTime(mind, now))
      modifies this
      ensures Valid()
      ensures ok ==> Took(before, trace, Write(now)) && mind == old(mind)
      ensures ok ==> proc == old(proc).(next := old(proc).next + 1)
      ensures !ok ==> Lost(before, trace, Write(now)) && proc.Idle?
      ensures ok <==> failures == old(failures)
    {
      assert Permitted(State(), task) by { Safe(); NextWriteIsPermitted(Now()); }
      WriteLeads(Now(), now);
      ok := Attempt(before, Write(now), db, Now().(db := db, proc := proc.(next := proc.next + 1)));
    }

    method RecordRetry(id: int, failure: Failure, ghost now: Time, nextAt: Time) returns (ok: bool)
      requires Valid() && Due(Record(id, failure)) && nextAt == RetryTime(mind, now)
      modifies this
      ensures Valid()
      ensures ok ==> Took(old(trace), trace, Write(now)) && mind == old(mind)
      ensures ok ==> proc == old(proc).(next := old(proc).next + 1)
      ensures !ok ==> Lost(old(trace), trace, Write(now)) && proc.Idle?
      ensures ok <==> failures == old(failures)
    {
      Interleave();
      ok := Commit(old(trace), Record(id, failure), now, Tables.RecordRetry(State(), id, failure, nextAt));
    }

    method CloseRetry(key: Key) returns (ok: bool)
      requires Valid() && Due(Close(key))
      modifies this
      ensures Valid()
      ensures ok ==> Took(old(trace), trace, Write(0)) && mind == old(mind)
      ensures ok ==> proc == old(proc).(next := old(proc).next + 1)
      ensures !ok ==> Lost(old(trace), trace, Write(0)) && proc.Idle?
      ensures ok <==> failures == old(failures)
    {
      Interleave();
      ok := Commit(old(trace), Close(key), 0, Tables.CloseRetry(State(), key));
    }

    method CreateNodeIncident(alert: NodeAlert) returns (ok: bool)
      requires Valid() && Due(Incident(alert))
      modifies this
      ensures Valid()
      ensures ok ==> Took(old(trace), trace, Write(0)) && mind == old(mind)
      ensures ok ==> proc == old(proc).(next := old(proc).next + 1)
      ensures !ok ==> Lost(old(trace), trace, Write(0)) && proc.Idle?
      ensures ok <==> failures == old(failures)
    {
      Interleave();
      ok := Commit(old(trace), Incident(alert), 0, State().(incidents := incidents + [alert]));
    }

    method CreateNodeNotificationEvent(alert: NodeAlert) returns (ok: bool)
      requires Valid() && Due(NodeEvent(alert))
      modifies this
      ensures Valid()
      ensures ok ==> Took(old(trace), trace, Write(0)) && mind == old(mind)
      ensures ok ==> proc == old(proc).(next := old(proc).next + 1)
      ensures !ok ==> Lost(old(trace), trace, Write(0)) && proc.Idle?
      ensures ok <==> failures == old(failures)
    {
      Interleave();
      ok := Commit(old(trace), NodeEvent(alert), 0, State().(notices := notices + [NodeError(alert)]));
    }

    // The transaction of SavePositiveFindings, row by row.
    method Upserted(db: Db, fs: seq<Finding>) returns (after: Db)
      ensures after == SaveFindings(db, fs)
    {
      var stored, changed, createdAny := db.findings, None, false;
      for i := 0 to |fs|
        invariant Saving(stored, changed, createdAny) == UpsertAll(Saving(db.findings, None, false), fs[..i])
      {
        assert fs[..i + 1][..i] == fs[..i];
        var key := Key(fs[i].id, fs[i].chain);
        var isNew, isChanged := false, false;
        if key !in stored {
          isNew, isChanged := true, true;
        } else {
          isChanged := stored[key].atomic != fs[i].atomic;
        }
        stored := stored[key := Stored(fs[i].atomic, fs[i].symbol)];
        if isChanged && changed.None? {
          changed := Some(key);
        }
        createdAny := createdAny || isNew;
      }
      assert fs[..|fs|] == fs;
      after := db.(findings := stored);
      if changed.Some? {
        after := after.(notices := db.notices + [if createdAny then FirstPositive(changed.value)
                                                 else BalanceChanged(changed.value)]);
      }
    }

    method SavePositiveFindings(fs: seq<Finding>) returns (ok: bool)
      requires Valid() && Due(Save(fs))
      modifies this
      ensures Valid()
      ensures ok ==> Took(old(trace), trace, Write(0)) && mind == old(mind)
      ensures ok ==> proc == old(proc).(next := old(proc).next + 1)
      ensures !ok ==> Lost(old(trace), trace, Write(0)) && proc.Idle?
      ensures ok <==> failures == old(failures)
    {
      Interleave();
      var db := Upserted(State(), fs);
      ok := Commit(old(trace), Save(fs), 0, db);
    }

    method PauseScan(run: nat) returns (ok: bool)
      requires Valid() && proc.Writing? && proc.run == run
      requires proc.next == |proc.tasks| && Pausing(proc.results)
      modifies this
      ensures Valid() && proc.Idle?
      ensures ok ==> Took(old(trace), trace, Pause)
      ensures ok ==> run < |runs| && runs[run].status.Paused? && runs[run].cursor == old(proc).cursor
      ensures !ok ==> Lost(old(trace), trace, Pause)
      ensures ok <==> failures == old(failures)
    {
      Interleave();
      assert run < |runs| && SetStatus(State(), run, Running, Paused, 0).runs[run].status.Paused?
        && SetStatus(State(), run, Running, Paused, 0).runs[run].cursor == proc.cursor by {
        Safe();
        PausingKeepsCursor(Now());
      }
      PauseLeads(Now());
      var paused := SetStatus(State(), run, Running, Paused, 0);
      ok := Attempt(old(trace), Pause, paused, Now().(db := paused, proc := Idle));
    }

    method AdvanceScan(run: nat, cursor: int, counters: Counters) returns (ok: bool)
      requires Valid() && proc.Writing? && proc.run == run
      requires proc.next == |proc.tasks| && !Pausing(proc.results)
      requires proc.batch != [] && cursor == proc.batch[|proc.batch| - 1].id && counters == Count(proc.results)
      modifies this
      ensures Valid()
      ensures ok ==> Took(old(trace), trace, Advance) && mind == old(mind)
      ensures ok ==> proc == Fetching(run, cursor, old(proc).end)
      ensures !ok ==> Lost(old(trace), trace, Advance) && proc.Idle?
      ensures ok <==> failures == old(failures)
    {
      Interleave();
      assert run < |runs| && run < |ledgers| by { Safe(); WrittenBatchCounts(Now()); }
      AdvanceLeads(Now());
      ok := Attempt(old(trace), Advance, Tables.AdvanceScan(State(), run, cursor, counters.processed, counters.empty,
                                                            counters.positive, counters.errors), AfterAdvance(Now()));
    }

    // The calls of the other tools, each running alone.

    // A query, which can fail as well.
    method Read() returns (ok: bool)
      modifies this`failures
      ensures ok <==> failures == old(failures)
    {
      ok := *;
      if !ok { failures := failures + 1; }
    }

    // A write of the retry tool; a failed call may have taken effect.
    method ToolWrite(task: Task, at: Time) returns (ok: bool, ghost made: bool)
      requires Valid() && Permitted(State(), task)
      modifies this
      ensures Valid() && proc == old(proc) && (ok ==> made)
      ensures State() == if made then Execute(old(State()), task, at) else old(State())
      ensures trace == if made then old(trace) + [Tool(task, at)] else old(trace)
      ensures ok <==> failures == old(failures)
    {
      var fate: Fate := *;
      ok, made := fate.Made?, !fate.NotMade?;
      if !fate.NotMade? {
        var db := State();
        match task {
          case Save(fs) => db := Upserted(State(), fs);
          case _ => db := Execute(State(), task, at);
        }
        ToolLeads(Now(), task, at);
        Perform(Tool(task, at), db, Now().(db := db));
      }
      if !ok { failures := failures + 1; }
    }

    // The cleaner's statement; the ids it returns are those it deleted.
    method DeleteCandidates(cutoff: Time, limit: nat) returns (ok: bool, ids: seq<int>)
      requires Valid()
      modifies this
      ensures Valid() && proc == old(proc)
      ensures ids == Candidates(old(State()), cutoff, limit)
      ensures State() == Clean(old(State()), cutoff, limit) || (!ok && State() == old(State()))
      ensures ok <==> failures == old(failures)
    {
      var fate: Fate := *;
      ok := fate.Made?;
      ids := Candidates(State(), cutoff, limit);
      if !fate.NotMade? {
        SweepLeads(Now(), cutoff, limit);
        Perform(Sweep(cutoff, limit), Clean(State(), cutoff, limit), AfterSweep(Now(), cutoff, limit));
      }
      if !ok { failures := failures + 1; }
    }

    // One import transaction. A transaction that fails has used up serial values and nothing else.
    method InsertAddresses(inputs: seq<Row>) returns (ok: bool, ids: seq<int>, inserted: nat)
      requires Valid()
      modifies this
      ensures Valid() && proc == old(proc)
      ensures ok ==> State() == InsertAll(old(State()), inputs).0 && ids == InsertAll(old(State()), inputs).1
      ensures ok ==> inserted == |rows| - |old(rows)|
      ensures !ok ==> || State() == InsertAll(old(State()), inputs).0
                      || State() == old(State()).(nextId := nextId)
      ensures ok <==> failures == old(failures)
    {
      assert IdsOk(State()) by {
        Safe();
        OpenPast(State(), ledgers, deleted);
      }
      var db;
      db, ids, inserted := Inserted(State(), inputs);
      var fate: Fate := *;
      ok := fate.Made?;
      ghost var w := Now();
      if fate.NotMade? {
        RolledBackLeads(w, |inputs|);
        Perform(RolledBack(|inputs|), State().(nextId := nextId + |inputs|),
                w.(db := w.db.(nextId := w.db.nextId + |inputs|)));
      } else {
        ImportLeads(w, inputs);
        Perform(Import(inputs), db, w.(db := db));
      }
      if !ok { failures := failures + 1; }
    }

    // The loop of the transaction, on the tables it sees.
    static method Inserted(before: Db, inputs: seq<Row>) returns (db: Db, ids: seq<int>, inserted: nat)
      requires IdsOk(before)
      ensures db == InsertAll(before, inputs).0 && ids == InsertAll(before, inputs).1
      ensures inserted == |db.rows| - |before.rows|
    {
      db, ids, inserted := before, [], 0;
      for i := 0 to |inputs|
        invariant IdsOk(db) && (db, ids) == InsertAll(before, inputs[..i])
        invariant inserted == |db.rows| - |before.rows|
      {
        InsertsOneMore(before, inputs, i);
        if inputs[i].Key() !in db.index {
          inserted := inserted + 1;
        }
        var (after, id) := Insert(db, inputs[i]);
        db := after;
        ids := ids + [id];
      }
      assert inputs[..|inputs|] == inputs;
    }
  }
}
