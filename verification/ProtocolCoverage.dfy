// Nothing is left out: a run covers every address there was when it was planned.
module ProtocolCoverage {
  import opened Tables
  import opened Protocol
  import opened ProtocolInvariant
  import opened ProtocolPast
  import opened ProtocolSteps
  import opened ProtocolSafety
  import opened ProtocolCounts

  // Beyond the end of every run.
  predicate Above(runs: seq<Run>, id: int) { forall i :: 0 <= i < |runs| ==> runs[i].end < id }

  // The range holds every row above the runs, from the first to the last of them.
  ghost predicate CoversAllAbove(db: Db, start: int, end: int) {
    && start in db.rows && end in db.rows && Above(db.runs, start) && Above(db.runs, end)
    && forall id :: id in db.rows && Above(db.runs, id) ==> start <= id <= end
  }

  // A plan leaves no row out, and finds nothing to do only if no row lies above the runs.
  lemma {:induction false} PlanIsComplete(w: World)
    requires Inv(w) && Enabled(w, Plan)
    ensures Apply(w, Plan).proc.Idle? ==> forall id :: id in w.db.rows ==> !Above(w.db.runs, id)
    ensures Apply(w, Plan).proc.Planned? ==>
              CoversAllAbove(w.db, Apply(w, Plan).proc.start, Apply(w, Plan).proc.end)
    ensures Apply(w, Plan).proc.Idle? || Apply(w, Plan).proc.Planned?
  {
    OpenPast(w.db, w.ledgers, w.deleted);
    RangeIsComplete(w.db);
  }

  lemma {:induction false} RangeIsComplete(db: Db)
    requires IdsOk(db) && RunsOk(db) && AllCompleted(db)
    ensures match UnscannedRange(db)
            case None => forall id :: id in db.rows ==> !Above(db.runs, id)
            case Some((start, end)) => CoversAllAbove(db, start, end)
  {
    var last := LastEnd(db.runs);
    var page := Select(db.rows.Keys, last, db.nextId - 1, 1);
    SelectIsPage(db.rows.Keys, last, db.nextId - 1, 1);
    AboveIsBeyondLast(db);
    forall id | id in db.rows && last < id ensures page != [] && page[0] <= id {
      assert id in page || page[0] in page;
    }
    assert page != [] ==> page[0] in page;
  }

  lemma {:induction false} AboveIsBeyondLast(db: Db)
    requires IdsOk(db) && RunsOk(db) && AllCompleted(db)
    ensures forall id :: id in db.rows ==> (Above(db.runs, id) <==> LastEnd(db.runs) < id)
  {
    forall id | id in db.rows && Above(db.runs, id) ensures LastEnd(db.runs) < id {
      assert LastEnd(db.runs) == 0 || exists i :: 0 <= i < |db.runs| && db.runs[i].end == LastEnd(db.runs);
    }
  }

  // A row stays until it is deleted, and a deleted one stays on record.

  ghost function EverStored(w: World): set<int> { w.db.rows.Keys + w.deleted.Keys }

  lemma {:induction false} ImportKeepsRows(db: Db, rows: seq<Row>)
    ensures db.rows.Keys <= InsertAll(db, rows).0.rows.Keys
  {
    if rows != [] { ImportKeepsRows(db, rows[..|rows| - 1]); }
  }

  lemma {:induction false} OtherEventsKeepRows(w: World, e: Event)
    requires Enabled(w, e) && !e.Import? && !e.Sweep?
    ensures Apply(w, e).db.rows == w.db.rows && Apply(w, e).deleted == w.deleted
  {
    match e {
      case Tool(task, at) => ExecuteKeepsRows(w.db, task, at);
      case Write(now) => ExecuteKeepsRows(w.db, w.proc.tasks[w.proc.next], RetryTime(w.mind, now));
      case _ =>
    }
  }

  lemma {:induction false} ExecuteKeepsRows(db: Db, task: Task, at: Time)
    ensures Execute(db, task, at).rows == db.rows
  {}

  lemma {:induction false} StepKeepsStored(w: World, e: Event)
    requires Enabled(w, e)
    ensures EverStored(w) <= EverStored(Apply(w, e))
  {
    if e.Import? {
      ImportKeepsRows(w.db, e.rows);
    } else if e.Sweep? {
      SweepEffect(w, e.cutoff, e.limit);
    } else {
      OtherEventsKeepRows(w, e);
    }
  }

  lemma {:induction false} StoredStays(events: seq<Event>, n: nat)
    requires Possible(GENESIS, events) && n <= |events|
    ensures Possible(GENESIS, events[..n]) && EverStored(End(GENESIS, events[..n])) <= EverStored(End(GENESIS, events))
  {
    var last := |events| - 1;
    if n <= last {
      StoredStays(events[..last], n);
      assert events[..last][..n] == events[..n];
      StepKeepsStored(End(GENESIS, events[..last]), events[last]);
    } else {
      assert events[..n] == events;
    }
  }

  // The plan of a run.

  lemma {:induction false} OnlyPlanPlans(w: World, e: Event)
    requires Enabled(w, e) && !e.Plan? && Apply(w, e).proc.Planned?
    ensures w.proc == Apply(w, e).proc && w.db.runs == Apply(w, e).db.runs
  {
    OtherEventsKeepRuns(w, e);
  }

  // The j-th event planned the range.
  ghost predicate PlannedAt(events: seq<Event>, j: nat, runs: seq<Run>, start: int, end: int) {
    && j < |events| && events[j] == Plan
    && Possible(GENESIS, events[..j]) && Enabled(End(GENESIS, events[..j]), Plan)
    && End(GENESIS, events[..j]).db.runs == runs
    && Apply(End(GENESIS, events[..j]), Plan).proc == Planned(start, end)
  }

  lemma {:induction false} PlanIsInHistory(events: seq<Event>) returns (j: nat)
    requires Possible(GENESIS, events) && End(GENESIS, events).proc.Planned?
    ensures var w := End(GENESIS, events); PlannedAt(events, j, w.db.runs, w.proc.start, w.proc.end)
  {
    var n := |events| - 1;
    if events[n].Plan? {
      j := n;
    } else {
      OnlyPlanPlans(End(GENESIS, events[..n]), events[n]);
      j := PlanIsInHistory(events[..n]);
      assert events[..n][..j] == events[..j];
    }
  }

  // The j-th event planned the i-th run.
  ghost predicate RunPlannedAt(events: seq<Event>, j: nat, i: nat)
    requires Possible(GENESIS, events)
  {
    && i < |End(GENESIS, events).db.runs| && j < |events| && Possible(GENESIS, events[..j])
    && |End(GENESIS, events[..j]).db.runs| == i
    && var run := End(GENESIS, events).db.runs[i];
       PlannedAt(events, j, End(GENESIS, events[..j]).db.runs, run.start, run.end)
  }

  lemma {:induction false} CreationIsPlanned(w: World, e: Event, i: nat)
    requires Inv(w) && Enabled(w, e) && |w.db.runs| <= i < |Apply(w, e).db.runs|
    ensures e.Create? && i == |w.db.runs|
    ensures Apply(w, e).db.runs[i].start == w.proc.start && Apply(w, e).db.runs[i].end == w.proc.end
  {
    if !TouchesRuns(e) { OtherEventsKeepRuns(w, e); }
  }

  lemma {:induction false} EveryRunWasPlanned(events: seq<Event>, i: nat) returns (j: nat)
    requires Possible(GENESIS, events) && i < |End(GENESIS, events).db.runs|
    ensures RunPlannedAt(events, j, i)
  {
    var n := |events| - 1;
    var before := events[..n];
    EveryRunKeepsInv(before);
    var w := End(GENESIS, before);
    if i < |w.db.runs| {
      j := EveryRunWasPlanned(before, i);
      PlanStays(events, j, i);
    } else {
      CreationIsPlanned(w, events[n], i);
      j := PlanIsInHistory(before);
      assert before[..j] == events[..j];
    }
  }

  lemma {:induction false} PlanStays(events: seq<Event>, j: nat, i: nat)
    requires Possible(GENESIS, events) && events != [] && RunPlannedAt(events[..|events| - 1], j, i)
    ensures RunPlannedAt(events, j, i)
  {
    RangeStays(events, i);
    assert events[..|events| - 1][..j] == events[..j];
  }

  lemma {:induction false} RangeStays(events: seq<Event>, i: nat)
    requires Possible(GENESIS, events) && events != [] && i < |End(GENESIS, events[..|events| - 1]).db.runs|
    ensures i < |End(GENESIS, events).db.runs|
    ensures var before, after := End(GENESIS, events[..|events| - 1]).db.runs[i], End(GENESIS, events).db.runs[i];
            after.start == before.start && after.end == before.end
  {
    var n := |events| - 1;
    EveryRunKeepsInv(events[..n]);
    CursorNeverMovesBack(End(GENESIS, events[..n]), events[n], i);
  }

  // Scanned to the end.

  // The address was counted by a completed run over its id.
  ghost predicate Scanned(w: World, id: int) {
    exists k :: 0 <= k < |w.db.runs| && k < |w.ledgers|
      && w.db.runs[k].status.Completed? && w.db.runs[k].Covers(id) && Counted(w.ledgers[k], id)
  }

  // Once a run is completed, everything up to its end has been scanned.
  lemma {:induction false} EverythingBelowIsScanned(w: World, i: nat, id: int)
    requires Inv(w) && i < |w.db.runs| && w.db.runs[i].status.Completed?
    requires id in EverStored(w) && id <= w.db.runs[i].end
    ensures Scanned(w, id)
  {
    OpenPast(w.db, w.ledgers, w.deleted);
    if id in w.deleted {
      DeletedIsScanned(w, id);
    } else {
      var k := RowIsCovered(w.db, i, id);
      assert RunOk(w.db, w.db.runs[k]);
      assert LedgerOk(w.db, w.deleted, w.db.runs[k], w.ledgers[k]);
    }
  }

  lemma {:induction false} RowIsCovered(db: Db, i: nat, id: int) returns (k: nat)
    requires RunsOk(db) && RowsPlaced(db) && i < |db.runs| && db.runs[i].status.Completed?
    requires id in db.rows && id <= db.runs[i].end
    ensures k < |db.runs| && db.runs[k].Covers(id) && db.runs[k].status.Completed?
  {
    assert Placed(db, id);
    k :| k < |db.runs| && db.runs[k].Covers(id);
    assert RunOk(db, db.runs[i]) && RunOk(db, db.runs[k]);
  }

  lemma {:induction false} DeletedIsScanned(w: World, id: int)
    requires PastOk(w.db, w.ledgers, w.deleted) && id in w.deleted
    ensures Scanned(w, id)
  {
    var j, k := DeletedWasCounted(w, id);
    assert |w.ledgers| == |w.db.runs| && Counted(w.ledgers[j], id);
  }

  // With every run completed and no row above them all, every address has been scanned.
  lemma {:induction false} NothingAboveIsAllScanned(w: World, id: int)
    requires Inv(w) && AllCompleted(w.db) && id in w.db.rows && !Above(w.db.runs, id)
    ensures Scanned(w, id)
  {
    var i :| 0 <= i < |w.db.runs| && id <= w.db.runs[i].end;
    EverythingBelowIsScanned(w, i, id);
  }

  lemma {:induction false} PlanEndsBeyond(w: World, start: int, end: int, id: int)
    requires Inv(w) && w.proc.Planning? && CoversAllAbove(w.db, start, end) && id in EverStored(w)
    ensures id <= end
  {
    OpenPast(w.db, w.ledgers, w.deleted);
    if id in w.deleted {
      DeletedIsScanned(w, id);
    }
  }

  // What was there at the plan of a run lies at or below its end.
  lemma {:induction false} PlanReachesAll(events: seq<Event>, i: nat, j: nat, id: int)
    requires Possible(GENESIS, events) && RunPlannedAt(events, j, i)
    requires id in EverStored(End(GENESIS, events[..j]))
    ensures id <= End(GENESIS, events).db.runs[i].end
  {
    var w := End(GENESIS, events[..j]);
    EveryRunKeepsInv(events[..j]);
    PlanIsComplete(w);
    PlanEndsBeyond(w, Apply(w, Plan).proc.start, Apply(w, Plan).proc.end, id);
  }

  // Every address there was when a run was planned has been scanned when the run is completed.
  lemma {:induction false} EveryPlannedAddressIsScanned(events: seq<Event>, i: nat) returns (j: nat)
    requires Possible(GENESIS, events) && i < |End(GENESIS, events).db.runs|
    requires End(GENESIS, events).db.runs[i].status.Completed?
    ensures RunPlannedAt(events, j, i)
    ensures forall id :: id in EverStored(End(GENESIS, events[..j])) ==> Scanned(End(GENESIS, events), id)
  {
    j := EveryRunWasPlanned(events, i);
    EveryRunKeepsInv(events);
    StoredStays(events, j);
    forall id | id in EverStored(End(GENESIS, events[..j])) ensures Scanned(End(GENESIS, events), id) {
      PlanReachesAll(events, i, j, id);
      EverythingBelowIsScanned(End(GENESIS, events), i, id);
    }
  }
}
