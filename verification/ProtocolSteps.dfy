// Every event of the scan protocol keeps its invariant.
module ProtocolSteps {
  import opened Domain
  import opened Results
  import opened Tables
  import opened Protocol
  import opened ProtocolInvariant
  import opened ProtocolPast
  import H = Health
  import Pool
  import PoolRuns

  // Events of the other processes. The scanner's locals stay true of the tables.

  lemma {:induction false} GrowthKeepsDone(a: Db, b: Db, tasks: seq<Task>, next: nat)
    requires next <= |tasks| && DoneBefore(a, tasks, next) && Grown(a, b)
    ensures DoneBefore(b, tasks, next)
  {
    forall j | 0 <= j < next ensures Done(b, tasks[j]) {
      assert Done(a, tasks[j]);
    }
  }

  lemma {:induction false} GrowthKeepsBatch(a: Db, b: Db, cursor: int, end: int, batch: seq<Address>)
    requires BatchOk(a, cursor, end, batch) && end < a.nextId && Grown(a, b)
    ensures BatchOk(b, cursor, end, batch)
  {}

  lemma {:induction false} GrowthKeepsPlan(a: Db, b: Db, start: int, end: int)
    requires ProcOk(a, Planned(start, end)) && IdsOk(a) && Grown(a, b)
    ensures ProcOk(b, Planned(start, end))
  {}

  lemma {:induction false} GrowthKeepsProc(a: Db, b: Db, proc: Proc)
    requires RunsOk(a) && IdsOk(a) && ProcOk(a, proc) && Grown(a, b)
    ensures ProcOk(b, proc)
  {
    match proc {
      case Planned(start, end) => GrowthKeepsPlan(a, b, start, end);
      case Completing(run) => assert RunOk(a, a.runs[run]);
      case Probing(run, cursor, end, batch) =>
        assert RunOk(a, a.runs[run]);
        GrowthKeepsBatch(a, b, cursor, end, batch);
      case Writing(run, cursor, end, batch, _, tasks, next) =>
        assert RunOk(a, a.runs[run]);
        GrowthKeepsBatch(a, b, cursor, end, batch);
        GrowthKeepsDone(a, b, tasks, next);
      case _ =>
    }
  }

  lemma {:induction false} GrowthKeepsInv(w: World, db: Db)
    requires Inv(w) && Grown(w.db, db) && IdsOk(db) && KeysOk(db)
    ensures Inv(w.(db := db))
  {
    GrowthKeepsPast(w.db, db, w.ledgers, w.deleted);
    assert ProcOk(db, w.proc) by {
      OpenPast(w.db, w.ledgers, w.deleted);
      GrowthKeepsProc(w.db, db, w.proc);
    }
  }

  lemma {:induction false} ImportKeepsInv(w: World, rows: seq<Row>)
    requires Inv(w)
    ensures Inv(Apply(w, Import(rows)))
  {
    assert IdsOk(w.db) && KeysOk(w.db) by { OpenPast(w.db, w.ledgers, w.deleted); }
    ImportGrows(w.db, rows);
    GrowthKeepsInv(w, InsertAll(w.db, rows).0);
  }

  lemma {:induction false} RollbackKeepsInv(w: World, count: nat)
    requires Inv(w)
    ensures Inv(Apply(w, RolledBack(count)))
  {
    assert IdsOk(w.db) && KeysOk(w.db) by { OpenPast(w.db, w.ledgers, w.deleted); }
    GrowthKeepsInv(w, w.db.(nextId := w.db.nextId + count));
    RollbackEffect(w, count);
  }

  lemma {:induction false} RollbackEffect(w: World, count: nat)
    ensures Apply(w, RolledBack(count)) == w.(db := w.db.(nextId := w.db.nextId + count))
  {}

  lemma {:induction false} ExecuteKeepsInv(w: World, task: Task, at: Time)
    requires Inv(w) && Permitted(w.db, task)
    ensures Inv(w.(db := Execute(w.db, task, at))) && Done(Execute(w.db, task, at), task)
  {
    assert IdsOk(w.db) && KeysOk(w.db) by { OpenPast(w.db, w.ledgers, w.deleted); }
    ExecuteGrows(w.db, task, at);
    GrowthKeepsInv(w, Execute(w.db, task, at));
  }

  lemma {:induction false} ToolKeepsInv(w: World, task: Task, at: Time)
    requires Inv(w) && Enabled(w, Tool(task, at))
    ensures Inv(Apply(w, Tool(task, at)))
  {
    ExecuteKeepsInv(w, task, at);
  }

  // A cleanup may come at any point of a batch: what it deletes lies below every active run.

  lemma {:induction false} SweptLieInRuns(db: Db, ledgers: seq<Ledger>, deleted: map<int, Row>, gone: set<int>, id: int)
    returns (i: nat)
    requires RunsOk(db) && LedgersOk(db, ledgers, deleted) && Sweepable(db, ledgers, gone) && id in gone
    ensures i < |db.runs| && id <= db.runs[i].end
  {
    assert Vindicated(db.runs, ledgers, id, db.rows[id].kind);
    var k: nat;
    i, k :| i < |ledgers| && i < |db.runs| && k < |ledgers[i]| && ledgers[i][k].id == id;
    assert LedgerOk(db, deleted, db.runs[i], ledgers[i]) && EntryOk(db, deleted, db.runs[i], ledgers[i][k]);
    assert RunOk(db, db.runs[i]);
  }

  lemma {:induction false} SweepKeepsPlan(db: Db, gone: set<int>, start: int, end: int)
    requires ProcOk(db, Planned(start, end)) && forall id :: id in gone ==> id < start
    ensures ProcOk(Delete(db, gone), Planned(start, end))
  {}

  lemma {:induction false} SweepKeepsBatch(db: Db, gone: set<int>, cursor: int, end: int, batch: seq<Address>)
    requires BatchOk(db, cursor, end, batch) && forall id :: id in gone ==> id <= cursor
    ensures BatchOk(Delete(db, gone), cursor, end, batch)
  {}

  lemma {:induction false} SweepKeepsDone(db: Db, gone: set<int>, tasks: seq<Task>, next: nat)
    requires next <= |tasks| && DoneBefore(db, tasks, next)
    ensures DoneBefore(Delete(db, gone), tasks, next)
  {
    forall j | 0 <= j < next ensures Done(Delete(db, gone), tasks[j]) {
      assert Done(db, tasks[j]);
    }
  }

  lemma {:induction false} SweptLieBelow(db: Db, ledgers: seq<Ledger>, gone: set<int>, run: nat)
    requires RunsOk(db) && Sweepable(db, ledgers, gone) && run < |db.runs| && !db.runs[run].status.Completed?
    ensures forall id :: id in gone ==> id <= db.runs[run].cursor
  {
    assert RunOk(db, db.runs[run]);
  }

  lemma {:induction false} SweptLieBelowPlan(db: Db, ledgers: seq<Ledger>, deleted: map<int, Row>, gone: set<int>,
                                             start: int, end: int)
    requires RunsOk(db) && LedgersOk(db, ledgers, deleted) && Sweepable(db, ledgers, gone)
    requires ProcOk(db, Planned(start, end))
    ensures forall id :: id in gone ==> id < start
  {
    forall id | id in gone ensures id < start {
      var i := SweptLieInRuns(db, ledgers, deleted, gone, id);
    }
  }

  lemma {:induction false} SweepKeepsProc(db: Db, ledgers: seq<Ledger>, deleted: map<int, Row>, gone: set<int>,
                                          proc: Proc)
    requires RunsOk(db) && LedgersOk(db, ledgers, deleted) && Sweepable(db, ledgers, gone) && ProcOk(db, proc)
    ensures ProcOk(Delete(db, gone), proc)
  {
    match proc {
      case Planned(start, end) =>
        SweptLieBelowPlan(db, ledgers, deleted, gone, start, end);
        SweepKeepsPlan(db, gone, start, end);
      case Probing(run, cursor, end, batch) =>
        SweptLieBelow(db, ledgers, gone, run);
        SweepKeepsBatch(db, gone, cursor, end, batch);
      case Writing(run, cursor, end, batch, _, tasks, next) =>
        SweptLieBelow(db, ledgers, gone, run);
        SweepKeepsBatch(db, gone, cursor, end, batch);
        SweepKeepsDone(db, gone, tasks, next);
      case _ =>
    }
  }

  lemma {:induction false} SweepKeepsInv(w: World, cutoff: Time, limit: nat)
    requires Inv(w)
    ensures Inv(Apply(w, Sweep(cutoff, limit)))
  {
    var gone := set id | id in Candidates(w.db, cutoff, limit);
    CandidatesAreSweepable(w.db, w.ledgers, w.deleted, cutoff, limit);
    SweepKeepsPast(w.db, w.ledgers, w.deleted, gone);
    assert ProcOk(Delete(w.db, gone), w.proc) by {
      OpenPast(w.db, w.ledgers, w.deleted);
      SweepKeepsProc(w.db, w.ledgers, w.deleted, gone, w.proc);
    }
    SweepEffect(w, cutoff, limit);
  }

  lemma {:induction false} SweepEffect(w: World, cutoff: Time, limit: nat)
    ensures var gone := set id | id in Candidates(w.db, cutoff, limit);
            Apply(w, Sweep(cutoff, limit)) == w.(db := Delete(w.db, gone), deleted := Buried(w.db, w.deleted, gone))
  {}

  // Events of the scanner that leave the tables alone.

  lemma {:induction false} CrashKeepsInv(w: World)
    requires Inv(w)
    ensures Inv(Apply(w, Crash))
  {}

  lemma {:induction false} FirstStepIsRight(db: Db)
    requires RunsOk(db)
    ensures ProcOk(db, FirstStep(db.runs)) && !FirstStep(db.runs).Idle? && !FirstStep(db.runs).Writing?
  {}

  lemma {:induction false} BeginKeepsInv(w: World, e: Event)
    requires Inv(w) && e.Begin? && Enabled(w, e)
    ensures Inv(Apply(w, e))
  {
    assert RunsOk(w.db) by { OpenPast(w.db, w.ledgers, w.deleted); }
    FirstStepIsRight(w.db);
  }

  lemma {:induction false} LeastIsFirst(ids: set<int>, low: int, high: int)
    ensures var page := Select(ids, low, high, 1);
            page != [] ==> (
              && |page| == 1 && page[0] in ids && low < page[0] <= high
              && forall id :: id in ids && low < id <= high ==> page[0] <= id)
  {
    SelectIsPage(ids, low, high, 1);
    var page := Select(ids, low, high, 1);
    if page != [] {
      assert page[0] in page;
      forall id | id in ids && low < id <= high ensures page[0] <= id {
        if id !in page { assert page[0] < id; }
      }
    }
  }

  lemma {:induction false} RangeBounds(db: Db, start: int, end: int)
    requires IdsOk(db) && AllCompleted(db) && UnscannedRange(db) == Some((start, end))
    ensures start in db.rows && end in db.rows && LastEnd(db.runs) < start <= end
    ensures forall i :: 0 <= i < |db.runs| ==> db.runs[i].end < start
    ensures forall id :: id in db.rows && LastEnd(db.runs) < id ==> start <= id
  {
    LeastIsFirst(db.rows.Keys, LastEnd(db.runs), db.nextId - 1);
  }

  lemma {:induction false} RangeIsPlanned(db: Db, start: int, end: int)
    requires IdsOk(db) && AllCompleted(db) && UnscannedRange(db) == Some((start, end))
    requires forall i :: 0 <= i < |db.runs| ==> RunOk(db, db.runs[i])
    ensures ProcOk(db, Planned(start, end))
  {
    RangeBounds(db, start, end);
    forall id | id in db.rows && forall i :: 0 <= i < |db.runs| ==> db.runs[i].end < id
      ensures start <= id
    {
      assert LastEnd(db.runs) < id;
    }
  }

  lemma {:induction false} PlanKeepsInv(w: World)
    requires Inv(w) && Enabled(w, Plan)
    ensures Inv(Apply(w, Plan))
  {
    var range := UnscannedRange(w.db);
    if range.Some? {
      assert ProcOk(w.db, Planned(range.value.0, range.value.1)) by {
        OpenPast(w.db, w.ledgers, w.deleted);
        RangeIsPlanned(w.db, range.value.0, range.value.1);
      }
    }
  }

  lemma {:induction false} FetchKeepsInv(w: World, limit: nat)
    requires Inv(w) && Enabled(w, Fetch(limit))
    ensures Inv(Apply(w, Fetch(limit)))
  {
    FetchedBatchIsOk(w.db, w.proc.cursor, w.proc.end, limit);
  }

  // The pool hands back one complete result per address, and a chain that fell ill only with a request to pause.
  lemma {:induction false} OutcomeFits(mind: Mind, batch: seq<Address>, results: seq<Result>, health: H.Book)
    requires Pool.ValidSetup(mind.setup) && mind.width >= 1
    requires PoolRuns.Outcome(mind.setup, batch, mind.width, mind.health, results, health)
    ensures ResultsFit(batch, results, Tasks(results))
    ensures H.Unhealthy(health) <= H.Unhealthy(mind.health) || Pausing(results)
  {
    PoolRuns.OutcomeIsComplete(mind.setup, batch, mind.width, mind.health, results, health);
    if !Pausing(results) {
      forall r | r in results ensures !r.pause {
        var i :| 0 <= i < |results| && results[i] == r;
      }
    }
  }

  lemma {:induction false} ProbeKeepsInv(w: World, results: seq<Result>, health: H.Book)
    requires Inv(w) && Enabled(w, Probe(results, health))
    ensures Inv(Apply(w, Probe(results, health)))
  {
    OutcomeFits(w.mind, w.proc.batch, results, health);
  }

  // Events of the scanner that change the tables.

  lemma {:induction false} MoreDone(db: Db, tasks: seq<Task>, next: nat)
    requires next < |tasks| && DoneBefore(db, tasks, next) && Done(db, tasks[next])
    ensures DoneBefore(db, tasks, next + 1)
  {}

  lemma {:induction false} WriteKeepsInv(w: World, now: Time)
    requires Inv(w) && Enabled(w, Write(now))
    ensures Inv(Apply(w, Write(now)))
  {
    DueWriteKeepsInv(w, RetryTime(w.mind, now));
  }

  lemma {:induction false} DueWriteKeepsInv(w: World, at: Time)
    requires Inv(w) && w.proc.Writing? && w.proc.next < |w.proc.tasks| && Permitted(w.db, w.proc.tasks[w.proc.next])
    ensures Inv(w.(db := Execute(w.db, w.proc.tasks[w.proc.next], at), proc := w.proc.(next := w.proc.next + 1)))
  {
    var task := w.proc.tasks[w.proc.next];
    ExecuteKeepsInv(w, task, at);
    MoreDone(Execute(w.db, task, at), w.proc.tasks, w.proc.next);
  }

  lemma {:induction false} SetStatusRestates(db: Db, run: nat, to: RunStatus, now: Time)
    requires run < |db.runs| && run == |db.runs| - 1 && !db.runs[run].status.Completed?
    requires to.Completed? ==> db.runs[run].cursor == db.runs[run].end
    ensures var after := SetStatus(db, run, db.runs[run].status, to, now);
            Restated(db.runs, after.runs, to) && OnlyRuns(db, after)
  {}

  lemma {:induction false} StatusKeepsInv(w: World, run: nat, to: RunStatus, now: Time, proc: Proc)
    requires Inv(w) && run < |w.db.runs| && run == |w.db.runs| - 1 && !w.db.runs[run].status.Completed?
    requires to.Completed? ==> w.db.runs[run].cursor == w.db.runs[run].end
    requires var db := SetStatus(w.db, run, w.db.runs[run].status, to, now); ProcOk(db, proc) && MindOk(proc, w.mind)
    ensures Inv(w.(db := SetStatus(w.db, run, w.db.runs[run].status, to, now), proc := proc))
  {
    SetStatusRestates(w.db, run, to, now);
    StatusKeepsPast(w.db, SetStatus(w.db, run, w.db.runs[run].status, to, now), w.ledgers, w.deleted, to);
  }

  lemma {:induction false} ResumeKeepsInv(w: World)
    requires Inv(w) && Enabled(w, Resume)
    ensures Inv(Apply(w, Resume))
  {
    StatusKeepsInv(w, w.proc.run, Running, 0, Fetching(w.proc.run, w.proc.cursor, w.proc.end));
  }

  lemma {:induction false} PauseKeepsInv(w: World)
    requires Inv(w) && Enabled(w, Pause)
    ensures Inv(Apply(w, Pause))
  {
    StatusKeepsInv(w, w.proc.run, Paused, 0, Idle);
  }

  // The row at the end of the range is still there, so an empty page means the cursor has reached it.
  lemma {:induction false} CompleteKeepsInv(w: World, now: Time)
    requires Inv(w) && Enabled(w, Complete(now))
    ensures Inv(Apply(w, Complete(now)))
  {
    assert w.db.runs[w.proc.run].cursor == w.db.runs[w.proc.run].end by {
      OpenPast(w.db, w.ledgers, w.deleted);
      assert RunOk(w.db, w.db.runs[w.proc.run]);
    }
    StatusKeepsInv(w, w.proc.run, Completed, now, Idle);
  }

  lemma {:induction false} CreateKeepsInv(w: World)
    requires Inv(w) && Enabled(w, Create)
    ensures Inv(Apply(w, Create))
  {
    CreateKeepsPast(w.db, w.ledgers, w.deleted, w.proc.start, w.proc.end);
  }

  lemma {:induction false} AdvanceEffect(w: World)
    requires ProcOk(w.db, w.proc) && Enabled(w, Advance)
    ensures Apply(w, Advance) == w.(
              db := Advanced(w.db, w.proc.run, w.proc.batch, w.proc.results),
              ledgers := w.ledgers[w.proc.run := w.ledgers[w.proc.run] + Entries(w.proc.results)],
              proc := Fetching(w.proc.run, w.proc.batch[|w.proc.batch| - 1].id, w.proc.end))
  {
    AdvanceScanMoves(w.db, w.proc.run, w.proc.batch, w.proc.results, Count(w.proc.results));
  }

  lemma {:induction false} AdvanceKeepsInv(w: World)
    requires Inv(w) && Enabled(w, Advance)
    ensures Inv(Apply(w, Advance))
  {
    AdvanceEffect(w);
    AdvanceKeepsPast(w.db, w.ledgers, w.deleted, w.proc.run, w.proc.end, w.proc.batch, w.proc.results);
  }
}
