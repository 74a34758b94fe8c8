// What each event of the protocol does, said of the tables and locals that the program works with.
module ProtocolMoves {
  import opened Domain
  import opened Results
  import opened Tables
  import opened Protocol
  import opened ProtocolInvariant
  import opened ProtocolPast
  import opened ProtocolSteps
  import opened ProtocolSafety
  import H = Health
  import Pool
  import PoolRuns

  // The event can happen and leads from one world to the other; folded.
  ghost predicate Leads(w: World, e: Event, next: World) {
    forall depth {:trigger Looking(depth)} :: Looking(depth) ==> Enabled(w, e) && Apply(w, e) == next
  }

  lemma {:induction false} OpenLeads(w: World, e: Event, next: World)
    requires Leads(w, e, next)
    ensures Enabled(w, e) && Apply(w, e) == next
  {
    assert Looking(0);
  }

  // The other processes.

  lemma {:induction false} ImportLeads(w: World, rows: seq<Row>)
    ensures Leads(w, Import(rows), w.(db := InsertAll(w.db, rows).0))
  {}

  lemma {:induction false} RolledBackLeads(w: World, count: nat)
    ensures Leads(w, RolledBack(count), w.(db := w.db.(nextId := w.db.nextId + count)))
  {}

  ghost function AfterSweep(w: World, cutoff: Time, limit: nat): World {
    w.(db := Clean(w.db, cutoff, limit),
       deleted := Buried(w.db, w.deleted, set id | id in Candidates(w.db, cutoff, limit)))
  }

  lemma {:induction false} SweepLeads(w: World, cutoff: Time, limit: nat)
    ensures Leads(w, Sweep(cutoff, limit), AfterSweep(w, cutoff, limit))
  {
    SweepEffect(w, cutoff, limit);
  }

  lemma {:induction false} ToolLeads(w: World, task: Task, at: Time)
    requires Permitted(w.db, task)
    ensures Leads(w, Tool(task, at), w.(db := Execute(w.db, task, at)))
  {}

  // The scanner.

  lemma {:induction false} CrashLeads(w: World)
    ensures Leads(w, Crash, w.(proc := Idle, mind := BLANK))
  {}

  lemma {:induction false} BeginLeads(w: World, setup: Pool.Setup, width: nat, health: H.Book)
    requires w.proc.Idle? && Pool.ValidSetup(setup) && width >= 1
    ensures Leads(w, Begin(setup, width, health),
                  w.(proc := FirstStep(w.db.runs), mind := Mind(setup, width, health, H.Unhealthy(health))))
  {}

  lemma {:induction false} ResumeLeads(w: World)
    requires w.proc.Resuming? && w.proc.run < |w.db.runs|
    ensures Leads(w, Resume, w.(db := SetStatus(w.db, w.proc.run, Paused, Running, 0),
                                proc := Fetching(w.proc.run, w.proc.cursor, w.proc.end)))
  {}

  lemma {:induction false} PlanLeads(w: World)
    requires w.proc.Planning?
    ensures Leads(w, Plan, w.(proc := match UnscannedRange(w.db)
                                      case None => Idle
                                      case Some((start, end)) => Planned(start, end)))
  {}

  lemma {:induction false} CreateLeads(w: World)
    requires w.proc.Planned?
    ensures Leads(w, Create, w.(db := CreateScan(w.db, w.proc.start, w.proc.end), ledgers := w.ledgers + [[]],
                                proc := Fetching(|w.db.runs|, w.proc.start - 1, w.proc.end)))
  {}

  lemma {:induction false} FetchLeads(w: World, limit: nat)
    requires w.proc.Fetching? && limit >= 1
    ensures var batch := NextAddresses(w.db, w.proc.cursor, w.proc.end, limit);
            Leads(w, Fetch(limit), w.(proc := if batch == [] then Completing(w.proc.run)
                                              else Probing(w.proc.run, w.proc.cursor, w.proc.end, batch)))
  {}

  lemma {:induction false} CompleteLeads(w: World, now: Time)
    requires w.proc.Completing? && w.proc.run < |w.db.runs|
    ensures Leads(w, Complete(now), w.(db := SetStatus(w.db, w.proc.run, Running, Completed, now), proc := Idle))
  {}

  lemma {:induction false} ProbeLeads(w: World, results: seq<Result>, health: H.Book)
    requires w.proc.Probing?
    requires PoolRuns.Outcome(w.mind.setup, w.proc.batch, w.mind.width, w.mind.health, results, health)
    ensures Leads(w, Probe(results, health),
                  w.(proc := Writing(w.proc.run, w.proc.cursor, w.proc.end, w.proc.batch, results, Tasks(results), 0),
                     mind := w.mind.(health := health)))
  {}

  lemma {:induction false} WriteLeads(w: World, now: Time)
    requires w.proc.Writing? && w.proc.next < |w.proc.tasks| && Permitted(w.db, w.proc.tasks[w.proc.next])
    ensures Leads(w, Write(now), w.(db := Execute(w.db, w.proc.tasks[w.proc.next], RetryTime(w.mind, now)),
                                    proc := w.proc.(next := w.proc.next + 1)))
  {}

  lemma {:induction false} PauseLeads(w: World)
    requires w.proc.Writing? && w.proc.next == |w.proc.tasks| && Pausing(w.proc.results) && w.proc.run < |w.db.runs|
    ensures Leads(w, Pause, w.(db := SetStatus(w.db, w.proc.run, Running, Paused, 0), proc := Idle))
  {}

  ghost function AfterAdvance(w: World): World
    requires w.proc.Writing? && w.proc.batch != [] && w.proc.run < |w.db.runs| && w.proc.run < |w.ledgers|
  {
    var cursor, c := w.proc.batch[|w.proc.batch| - 1].id, Count(w.proc.results);
    w.(db := AdvanceScan(w.db, w.proc.run, cursor, c.processed, c.empty, c.positive, c.errors),
       ledgers := w.ledgers[w.proc.run := w.ledgers[w.proc.run] + Entries(w.proc.results)],
       proc := Fetching(w.proc.run, cursor, w.proc.end))
  }

  lemma {:induction false} AdvanceLeads(w: World)
    requires w.proc.Writing? && w.proc.next == |w.proc.tasks| && !Pausing(w.proc.results)
    requires w.proc.batch != [] && w.proc.run < |w.db.runs| && w.proc.run < |w.ledgers|
    ensures Leads(w, Advance, AfterAdvance(w))
  {}

  // What the invariant adds where the scanner acts.

  lemma {:induction false} ResumingRunExists(w: World)
    requires Inv(w) && w.proc.Resuming?
    ensures w.proc.run < |w.db.runs|
  {}

  // Completing the active run leaves none active.
  lemma {:induction false} CompletingLeavesNone(w: World, now: Time)
    requires Inv(w) && w.proc.Completing?
    ensures w.proc.run < |w.db.runs| && AllCompleted(SetStatus(w.db, w.proc.run, Running, Completed, now))
  {
    assert RunsOk(w.db) by { OpenPast(w.db, w.ledgers, w.deleted); }
  }

  // A batch that is not counted leaves the cursor where it was.
  lemma {:induction false} PausingKeepsCursor(w: World)
    requires Inv(w) && w.proc.Writing?
    ensures w.proc.run < |w.db.runs|
    ensures var paused := SetStatus(w.db, w.proc.run, Running, Paused, 0);
            paused.runs[w.proc.run].status.Paused? && paused.runs[w.proc.run].cursor == w.proc.cursor
  {}

  // A written batch can always be counted.
  lemma {:induction false} WrittenBatchCounts(w: World)
    requires Inv(w) && w.proc.Writing?
    ensures w.proc.batch != [] && w.proc.run < |w.db.runs| && w.proc.run < |w.ledgers|
  {
    assert |w.ledgers| == |w.db.runs| by { OpenPast(w.db, w.ledgers, w.deleted); }
  }
}
