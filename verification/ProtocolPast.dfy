// The tables and the history agree after every change that the protocol makes to them.
module ProtocolPast {
  import opened Domain
  import opened Results
  import opened Tables
  import opened Protocol
  import opened ProtocolInvariant
  import PoolInvariant

  // Changes that only add: new rows get fresh ids, blockers stay.

  ghost predicate Grown(a: Db, b: Db) {
    && b.runs == a.runs && a.nextId <= b.nextId
    && a.retries.Keys <= b.retries.Keys && a.findings.Keys <= b.findings.Keys
    && (forall id :: id in a.rows ==> id in b.rows && b.rows[id] == a.rows[id])
    && (forall id :: id in b.rows && id !in a.rows ==> a.nextId <= id)
  }

  lemma {:induction false} GrowthKeepsLedger(a: Db, b: Db, deleted: map<int, Row>, run: Run, ledger: Ledger)
    requires RunOk(a, run) && LedgerOk(a, deleted, run, ledger) && Grown(a, b)
    ensures LedgerOk(b, deleted, run, ledger)
  {
    forall k | 0 <= k < |ledger| ensures EntryOk(b, deleted, run, ledger[k]) {
      assert EntryOk(a, deleted, run, ledger[k]) && Blocked(b, ledger[k]);
    }
  }

  lemma {:induction false} GrowthKeepsRuns(a: Db, b: Db)
    requires RunsOk(a) && RowsPlaced(a) && Grown(a, b)
    ensures RunsOk(b) && RowsPlaced(b)
  {
    forall i | 0 <= i < |a.runs| ensures RunOk(b, b.runs[i]) && a.runs[i].end < a.nextId {
      assert RunOk(a, a.runs[i]);
    }
    forall id | id in b.rows ensures Placed(b, id) {
      if id in a.rows { assert Placed(a, id); }
    }
  }

  lemma {:induction false} GrowthKeepsDeleted(a: Db, b: Db, ledgers: seq<Ledger>, deleted: map<int, Row>)
    requires DeletedOk(a, ledgers, deleted) && Grown(a, b)
    ensures DeletedOk(b, ledgers, deleted)
  {}

  lemma {:induction false} GrowthKeepsPast(a: Db, b: Db, ledgers: seq<Ledger>, deleted: map<int, Row>)
    requires Past(a, ledgers, deleted) && Grown(a, b) && IdsOk(b) && KeysOk(b)
    ensures Past(b, ledgers, deleted)
  {
    OpenPast(a, ledgers, deleted);
    GrowthKeepsRuns(a, b);
    GrowthKeepsDeleted(a, b, ledgers, deleted);
    forall i | 0 <= i < |ledgers| ensures LedgerOk(b, deleted, b.runs[i], ledgers[i]) {
      assert RunOk(a, a.runs[i]);
      GrowthKeepsLedger(a, b, deleted, a.runs[i], ledgers[i]);
    }
  }

  lemma {:induction false} InsertGrows(db: Db, row: Row)
    requires IdsOk(db) && KeysOk(db)
    ensures var after := Insert(db, row).0; Grown(db, after) && IdsOk(after) && KeysOk(after)
  {}

  lemma {:induction false} ImportGrows(db: Db, rows: seq<Row>)
    requires IdsOk(db) && KeysOk(db)
    ensures var after := InsertAll(db, rows).0; Grown(db, after) && IdsOk(after) && KeysOk(after)
  {
    if rows != [] {
      var n := |rows| - 1;
      var before := InsertAll(db, rows[..n]).0;
      ImportGrows(db, rows[..n]);
      InsertGrows(before, rows[n]);
      GrowthComposes(db, before, Insert(before, rows[n]).0);
    }
  }

  lemma {:induction false} GrowthComposes(a: Db, b: Db, c: Db)
    requires Grown(a, b) && Grown(b, c)
    ensures Grown(a, c)
  {}

  lemma {:induction false} UpsertAllKeys(saving: Saving, findings: seq<Finding>)
    ensures saving.findings.Keys <= UpsertAll(saving, findings).findings.Keys
    ensures forall f :: f in findings ==> Key(f.id, f.chain) in UpsertAll(saving, findings).findings
    ensures forall key :: key in UpsertAll(saving, findings).findings && key !in saving.findings ==>
              exists f :: f in findings && Key(f.id, f.chain) == key
  {
    if findings != [] {
      var n := |findings| - 1;
      UpsertAllKeys(saving, findings[..n]);
      assert forall f :: f in findings <==> f in findings[..n] || f == findings[n];
    }
  }

  lemma {:induction false} SaveGrows(db: Db, findings: seq<Finding>)
    requires IdsOk(db) && KeysOk(db) && Permitted(db, Save(findings))
    ensures var after := SaveFindings(db, findings);
            Grown(db, after) && IdsOk(after) && KeysOk(after) && Done(after, Save(findings))
  {
    UpsertAllKeys(Saving(db.findings, None, false), findings);
  }

  lemma {:induction false} RecordGrows(db: Db, id: int, failure: Failure, at: Time)
    requires IdsOk(db) && KeysOk(db) && id in db.rows
    ensures var after := RecordRetry(db, id, failure, at);
            Grown(db, after) && IdsOk(after) && KeysOk(after) && Done(after, Record(id, failure))
  {}

  lemma {:induction false} CloseGrows(db: Db, key: Key)
    requires IdsOk(db) && KeysOk(db)
    ensures var after := CloseRetry(db, key); Grown(db, after) && IdsOk(after) && KeysOk(after)
  {}

  lemma {:induction false} ExecuteGrows(db: Db, task: Task, at: Time)
    requires IdsOk(db) && KeysOk(db) && Permitted(db, task)
    ensures Grown(db, Execute(db, task, at)) && IdsOk(Execute(db, task, at)) && KeysOk(Execute(db, task, at))
    ensures Done(Execute(db, task, at), task)
  {
    match task {
      case Record(id, failure) => RecordGrows(db, id, failure, at);
      case Close(key) => CloseGrows(db, key);
      case Save(findings) => SaveGrows(db, findings);
      case _ =>
    }
  }

  // Changes of the runs. Ledgers and completed runs of the past are carried over.

  lemma {:induction false} PlacedByRanges(a: Db, b: Db)
    requires RowsPlaced(a) && a.rows == b.rows && |a.runs| == |b.runs|
    requires forall i :: 0 <= i < |a.runs| ==> a.runs[i].start == b.runs[i].start && a.runs[i].end == b.runs[i].end
    ensures RowsPlaced(b)
  {
    forall id | id in b.rows ensures Placed(b, id) {
      assert Placed(a, id);
      if i :| 0 <= i < |a.runs| && a.runs[i].Covers(id) { assert b.runs[i].Covers(id); }
    }
  }

  // History only grows: completed runs stay completed and ledgers keep their entries.
  ghost predicate HistoryKept(a: seq<Run>, b: seq<Run>, before: seq<Ledger>, after: seq<Ledger>) {
    && |before| <= |after| && |a| <= |b|
    && (forall i :: 0 <= i < |before| && i < |a| && a[i].status.Completed? ==> b[i].status.Completed?)
    && (forall i :: 0 <= i < |before| ==> before[i] <= after[i])
  }

  lemma {:induction false} VindicationStays(a: seq<Run>, b: seq<Run>, before: seq<Ledger>, after: seq<Ledger>, id: int,
                                            kind: AddressType)
    requires HistoryKept(a, b, before, after) && Vindicated(a, before, id, kind)
    ensures Vindicated(b, after, id, kind)
  {
    var i, k :| 0 <= i < |before| && i < |a| && 0 <= k < |before[i]|
      && a[i].status.Completed?
      && before[i][k].id == id && before[i][k].kind == kind
      && Answered(before[i][k]) && Empty(before[i][k]);
    assert after[i][k] == before[i][k];
  }

  lemma {:induction false} DeletedStays(a: Db, b: Db, before: seq<Ledger>, after: seq<Ledger>, deleted: map<int, Row>)
    requires HistoryKept(a.runs, b.runs, before, after) && DeletedOk(a, before, deleted)
    requires a.rows == b.rows && a.nextId == b.nextId
    ensures DeletedOk(b, after, deleted)
  {
    forall id | id in deleted ensures Vindicated(b.runs, after, id, deleted[id].kind) {
      VindicationStays(a.runs, b.runs, before, after, id, deleted[id].kind);
    }
  }

  // The tables differ in their runs only.
  ghost predicate OnlyRuns(a: Db, b: Db) { b == a.(runs := b.runs) }

  lemma {:induction false} OnlyRunsKeepsKeys(a: Db, b: Db)
    requires IdsOk(a) && KeysOk(a) && OnlyRuns(a, b)
    ensures IdsOk(b) && KeysOk(b)
  {}

  // Rows, blockers and deletions as before, so an entry is judged as before.
  lemma {:induction false} LedgerStays(a: Db, b: Db, deleted: map<int, Row>, run: Run, run': Run, ledger: Ledger)
    requires LedgerOk(a, deleted, run, ledger) && OnlyRuns(a, b)
    requires run'.start == run.start && run'.cursor == run.cursor
    requires run.status.Completed? ==> run'.status.Completed?
    requires CountersOf(run') == CountersOf(run)
    ensures LedgerOk(b, deleted, run', ledger)
  {
    forall k | 0 <= k < |ledger| ensures EntryOk(b, deleted, run', ledger[k]) {
      assert EntryOk(a, deleted, run, ledger[k]) && Blocked(a, ledger[k]);
    }
  }

  // The last run has changed its status, and nothing else.
  ghost predicate Restated(runs: seq<Run>, runs': seq<Run>, to: RunStatus) {
    var last := |runs| - 1;
    && last >= 0 && |runs'| == |runs| && !runs[last].status.Completed?
    && (to.Completed? ==> runs[last].cursor == runs[last].end)
    && (forall i :: 0 <= i < last ==> runs'[i] == runs[i])
    && runs'[last] == runs[last].(status := to, completedAt := runs'[last].completedAt)
  }

  lemma {:induction false} StatusKeepsRuns(a: Db, b: Db, to: RunStatus)
    requires RunsOk(a) && Restated(a.runs, b.runs, to) && OnlyRuns(a, b)
    ensures RunsOk(b)
  {
    forall i | 0 <= i < |b.runs| ensures RunOk(b, b.runs[i]) {
      assert RunOk(a, a.runs[i]);
    }
  }

  lemma {:induction false} StatusKeepsLedgers(a: Db, b: Db, ledgers: seq<Ledger>, deleted: map<int, Row>, to: RunStatus)
    requires LedgersOk(a, ledgers, deleted) && Restated(a.runs, b.runs, to) && OnlyRuns(a, b)
    ensures LedgersOk(b, ledgers, deleted)
  {
    forall i | 0 <= i < |ledgers| ensures LedgerOk(b, deleted, b.runs[i], ledgers[i]) {
      LedgerStays(a, b, deleted, a.runs[i], b.runs[i], ledgers[i]);
    }
  }

  lemma {:induction false} StatusKeepsRest(a: Db, b: Db, ledgers: seq<Ledger>, deleted: map<int, Row>, to: RunStatus)
    requires RowsPlaced(a) && DeletedOk(a, ledgers, deleted) && Restated(a.runs, b.runs, to) && OnlyRuns(a, b)
    ensures RowsPlaced(b) && DeletedOk(b, ledgers, deleted)
  {
    PlacedByRanges(a, b);
    DeletedStays(a, b, ledgers, ledgers, deleted);
  }

  lemma {:induction false} StatusKeepsPast(a: Db, b: Db, ledgers: seq<Ledger>, deleted: map<int, Row>, to: RunStatus)
    requires Past(a, ledgers, deleted) && Restated(a.runs, b.runs, to) && OnlyRuns(a, b)
    ensures Past(b, ledgers, deleted)
  {
    OpenPast(a, ledgers, deleted);
    OnlyRunsKeepsKeys(a, b);
    StatusKeepsRuns(a, b, to);
    StatusKeepsLedgers(a, b, ledgers, deleted, to);
    StatusKeepsRest(a, b, ledgers, deleted, to);
  }

  // Opening a run over the planned range.

  lemma {:induction false} CreatePlacesRows(db: Db, start: int, end: int)
    requires RowsPlaced(db) && ProcOk(db, Planned(start, end))
    ensures RowsPlaced(CreateScan(db, start, end))
  {
    var after, n := CreateScan(db, start, end), |db.runs|;
    forall id | id in after.rows ensures Placed(after, id) {
      assert Placed(db, id);
      if i :| 0 <= i < n && db.runs[i].Covers(id) {
        assert after.runs[i].Covers(id);
      } else if id <= end {
        assert after.runs[n].Covers(id);
      }
    }
  }

  lemma {:induction false} CreateKeepsRuns(db: Db, start: int, end: int)
    requires IdsOk(db) && RunsOk(db) && ProcOk(db, Planned(start, end))
    ensures RunsOk(CreateScan(db, start, end))
  {
    var after := CreateScan(db, start, end);
    forall i | 0 <= i < |after.runs| ensures RunOk(after, after.runs[i]) {
      if i < |db.runs| { assert RunOk(db, db.runs[i]); }
    }
  }

  lemma {:induction false} CreateKeepsLedgers(db: Db, ledgers: seq<Ledger>, deleted: map<int, Row>, start: int,
                                              end: int)
    requires LedgersOk(db, ledgers, deleted)
    ensures LedgersOk(CreateScan(db, start, end), ledgers + [[]], deleted)
  {
    var after := CreateScan(db, start, end);
    forall i | 0 <= i < |ledgers| ensures LedgerOk(after, deleted, after.runs[i], ledgers[i]) {
      LedgerStays(db, after, deleted, db.runs[i], db.runs[i], ledgers[i]);
    }
  }

  lemma {:induction false} CreateKeepsPast(db: Db, ledgers: seq<Ledger>, deleted: map<int, Row>, start: int, end: int)
    requires Past(db, ledgers, deleted) && ProcOk(db, Planned(start, end))
    ensures Past(CreateScan(db, start, end), ledgers + [[]], deleted)
  {
    OpenPast(db, ledgers, deleted);
    CreateKeepsPastOk(db, ledgers, deleted, start, end);
    FoldPast(CreateScan(db, start, end), ledgers + [[]], deleted);
  }

  lemma {:induction false} FoldPast(db: Db, ledgers: seq<Ledger>, deleted: map<int, Row>)
    requires PastOk(db, ledgers, deleted)
    ensures Past(db, ledgers, deleted)
  {}

  lemma {:induction false} CreateKeepsPastOk(db: Db, ledgers: seq<Ledger>, deleted: map<int, Row>, start: int, end: int)
    requires PastOk(db, ledgers, deleted) && ProcOk(db, Planned(start, end))
    ensures PastOk(CreateScan(db, start, end), ledgers + [[]], deleted)
  {
    CreateKeepsRuns(db, start, end);
    CreatePlacesRows(db, start, end);
    CreateKeepsLedgers(db, ledgers, deleted, start, end);
    DeletedStays(db, CreateScan(db, start, end), ledgers, ledgers + [[]], deleted);
  }

  // Counting a batch.

  // The run as the batch leaves it.
  ghost function Moved(run: Run, cursor: int, counters: Counters): Run {
    run.(cursor := cursor, processed := run.processed + counters.processed, empty := run.empty + counters.empty,
         positive := run.positive + counters.positive, errors := run.errors + counters.errors)
  }

  // A checked batch beyond the cursor, whose writes are all made.
  ghost predicate Written(db: Db, cursor: int, end: int, batch: seq<Address>, results: seq<Result>) {
    && BatchOk(db, cursor, end, batch) && ResultsFit(batch, results, Tasks(results))
    && DoneBefore(db, Tasks(results), |Tasks(results)|)
  }

  // An entry counted before stays good when the cursor moves on.
  lemma {:induction false} EntryStays(a: Db, b: Db, deleted: map<int, Row>, run: Run, run': Run, entry: Entry)
    requires EntryOk(a, deleted, run, entry) && OnlyRuns(a, b)
    requires run'.start == run.start && run.cursor <= run'.cursor && run'.status == run.status
    ensures EntryOk(b, deleted, run', entry)
  {
    assert Blocked(a, entry);
  }

  lemma {:induction false} BatchBounds(db: Db, cursor: int, end: int, batch: seq<Address>, address: Address)
    requires BatchOk(db, cursor, end, batch) && address in batch
    ensures address.id in db.rows && db.rows[address.id].kind == address.kind
    ensures cursor < address.id <= batch[|batch| - 1].id
  {
    var i :| 0 <= i < |batch| && batch[i] == address;
  }

  lemma {:induction false} ResultIsBlocked(db: Db, results: seq<Result>, k: nat)
    requires k < |results| && PoolInvariant.ResultsOk(results)
    requires DoneBefore(db, Tasks(results), |Tasks(results)|)
    ensures Answered(EntryOf(results[k])) && Blocked(db, EntryOf(results[k]))
  {
    assert FullyAnswered(results[k]);
    WritesBlock(db, results, k);
  }

  // A result of the batch becomes a good entry beyond the old cursor.
  lemma {:induction false} EntryJoins(db: Db, deleted: map<int, Row>, run: Run, cursor: int, end: int,
                                      batch: seq<Address>, result: Result)
    requires BatchOk(db, cursor, end, batch) && result.address in batch
    requires Answered(EntryOf(result)) && Blocked(db, EntryOf(result))
    requires run.start <= cursor + 1 && run.cursor == batch[|batch| - 1].id
    ensures EntryOk(db, deleted, run, EntryOf(result)) && cursor < result.address.id
  {
    BatchBounds(db, cursor, end, batch, result.address);
  }

  lemma {:induction false} RowIsCounted(db: Db, cursor: int, end: int, batch: seq<Address>, results: seq<Result>,
                                        ledger: Ledger, start: int, id: int)
    requires Written(db, cursor, end, batch, results) && id in db.rows
    requires id <= cursor ==> Counted(ledger, id)
    requires start <= id <= batch[|batch| - 1].id
    ensures Counted(ledger + Entries(results), id)
  {
    var entries := Entries(results);
    if id <= cursor {
      var k :| 0 <= k < |ledger| && ledger[k].id == id;
      assert (ledger + entries)[k].id == id;
    } else {
      var i :| 0 <= i < |batch| && batch[i].id == id;
      BatchIsCounted(batch, results, i);
      var k :| 0 <= k < |entries| && entries[k].id == id;
      assert (ledger + entries)[|ledger| + k].id == id;
    }
  }

  lemma {:induction false} DistinctAppends(a: Ledger, b: Ledger, cursor: int)
    requires Distinct(a) && Distinct(b)
    requires forall k :: 0 <= k < |a| ==> a[k].id <= cursor
    requires forall k :: 0 <= k < |b| ==> cursor < b[k].id
    ensures Distinct(a + b)
  {}

  lemma {:induction false} EntriesJoin(db: Db, deleted: map<int, Row>, run: Run, a: Ledger, b: Ledger)
    requires forall k :: 0 <= k < |a| ==> EntryOk(db, deleted, run, a[k])
    requires forall k :: 0 <= k < |b| ==> EntryOk(db, deleted, run, b[k])
    ensures forall k :: 0 <= k < |a + b| ==> EntryOk(db, deleted, run, (a + b)[k])
  {
    forall k | 0 <= k < |a + b| ensures EntryOk(db, deleted, run, (a + b)[k]) {
      if k < |a| {
        assert (a + b)[k] == a[k];
      } else {
        assert (a + b)[k] == b[k - |a|];
      }
    }
  }

  // The new entries of a ledger, each beyond the old cursor.
  lemma {:induction false} NewEntries(db: Db, deleted: map<int, Row>, run: Run, cursor: int, end: int,
                                      batch: seq<Address>, results: seq<Result>)
    requires Written(db, cursor, end, batch, results)
    requires run.start <= cursor + 1 && run.cursor == batch[|batch| - 1].id
    ensures forall k :: 0 <= k < |results| ==>
              EntryOk(db, deleted, run, Entries(results)[k]) && cursor < Entries(results)[k].id
    ensures Distinct(Entries(results))
  {
    ResultsAreFromBatch(batch, results);
    forall k | 0 <= k < |results|
      ensures EntryOk(db, deleted, run, Entries(results)[k]) && cursor < Entries(results)[k].id
    {
      ResultIsBlocked(db, results, k);
      EntryJoins(db, deleted, run, cursor, end, batch, results[k]);
    }
    ResultsMatchBatch(db, cursor, end, batch, results);
  }

  // The old ones.
  lemma {:induction false} OldEntries(db: Db, deleted: map<int, Row>, run: Run, run': Run, ledger: Ledger)
    requires forall k :: 0 <= k < |ledger| ==> EntryOk(db, deleted, run, ledger[k])
    requires run'.start == run.start && run.cursor <= run'.cursor && run'.status == run.status
    ensures forall k :: 0 <= k < |ledger| ==> EntryOk(db, deleted, run', ledger[k]) && ledger[k].id <= run.cursor
  {
    forall k | 0 <= k < |ledger| ensures EntryOk(db, deleted, run', ledger[k]) && ledger[k].id <= run.cursor {
      EntryStays(db, db, deleted, run, run', ledger[k]);
    }
  }

  lemma {:induction false} MovedCounts(run: Run, cursor: int, before: Counters, counters: Counters)
    requires CountersOf(run) == before
    ensures CountersOf(Moved(run, cursor, counters)) == before.Plus(counters)
  {}

  lemma {:induction false} LedgerGrows(db: Db, deleted: map<int, Row>, run: Run, ledger: Ledger, end: int,
                                       batch: seq<Address>, results: seq<Result>)
    requires Written(db, run.cursor, end, batch, results) && LedgerOk(db, deleted, run, ledger)
    requires run.start <= run.cursor + 1
    ensures LedgerOk(db, deleted, Moved(run, batch[|batch| - 1].id, Count(results)), ledger + Entries(results))
  {
    var run' := Moved(run, batch[|batch| - 1].id, Count(results));
    OldEntries(db, deleted, run, run', ledger);
    NewEntries(db, deleted, run', run.cursor, end, batch, results);
    EntriesJoin(db, deleted, run', ledger, Entries(results));
    DistinctAppends(ledger, Entries(results), run.cursor);
    forall id | id in db.rows && run'.start <= id <= run'.cursor ensures Counted(ledger + Entries(results), id) {
      RowIsCounted(db, run.cursor, end, batch, results, ledger, run.start, id);
    }
    LedgerCounts(run, ledger, run'.cursor, results);
  }

  lemma {:induction false} LedgerCounts(run: Run, ledger: Ledger, cursor: int, results: seq<Result>)
    requires CountersOf(run) == CountLedger(ledger) && PoolInvariant.ResultsOk(results)
    ensures CountersOf(Moved(run, cursor, Count(results))) == CountLedger(ledger + Entries(results))
  {
    CountOfEntries(results);
    CountLedgerAppends(ledger, Entries(results));
    MovedCounts(run, cursor, CountLedger(ledger), Count(results));
  }

  // One run has been moved by a batch.
  ghost function Advanced(db: Db, run: nat, batch: seq<Address>, results: seq<Result>): Db
    requires run < |db.runs| && batch != []
  {
    db.(runs := db.runs[run := Moved(db.runs[run], batch[|batch| - 1].id, Count(results))])
  }

  lemma {:induction false} AdvanceScanMoves(db: Db, run: nat, batch: seq<Address>, results: seq<Result>, c: Counters)
    requires run < |db.runs| && db.runs[run].status.Running? && batch != [] && c == Count(results)
    ensures AdvanceScan(db, run, batch[|batch| - 1].id, c.processed, c.empty, c.positive, c.errors)
         == Advanced(db, run, batch, results)
  {}

  lemma {:induction false} AdvanceKeepsLedgers(db: Db, ledgers: seq<Ledger>, deleted: map<int, Row>, run: nat, end: int,
                                               batch: seq<Address>, results: seq<Result>)
    requires RunsOk(db) && LedgersOk(db, ledgers, deleted) && run < |db.runs|
    requires Written(db, db.runs[run].cursor, end, batch, results)
    ensures LedgersOk(Advanced(db, run, batch, results), ledgers[run := ledgers[run] + Entries(results)], deleted)
  {
    var after, ledgers' := Advanced(db, run, batch, results), ledgers[run := ledgers[run] + Entries(results)];
    assert RunOk(db, db.runs[run]);
    LedgerGrows(db, deleted, db.runs[run], ledgers[run], end, batch, results);
    forall i | 0 <= i < |ledgers'| ensures LedgerOk(after, deleted, after.runs[i], ledgers'[i]) {
      LedgerStays(db, after, deleted, after.runs[i], after.runs[i], ledgers'[i]);
    }
  }

  lemma {:induction false} AdvanceKeepsRuns(db: Db, run: nat, end: int, batch: seq<Address>, results: seq<Result>)
    requires RunsOk(db) && RowsPlaced(db) && run < |db.runs| && ActiveRun(db, run, db.runs[run].cursor, end, Running)
    requires BatchOk(db, db.runs[run].cursor, end, batch)
    ensures RunsOk(Advanced(db, run, batch, results)) && RowsPlaced(Advanced(db, run, batch, results))
  {
    var after := Advanced(db, run, batch, results);
    forall i | 0 <= i < |after.runs| ensures RunOk(after, after.runs[i]) {
      assert RunOk(db, db.runs[i]);
    }
    PlacedByRanges(db, after);
  }

  lemma {:induction false} AdvanceKeepsDeleted(db: Db, ledgers: seq<Ledger>, deleted: map<int, Row>, run: nat,
                                               batch: seq<Address>, results: seq<Result>)
    requires DeletedOk(db, ledgers, deleted) && run < |db.runs| && run < |ledgers| && batch != []
    ensures DeletedOk(Advanced(db, run, batch, results), ledgers[run := ledgers[run] + Entries(results)], deleted)
  {
    var grown := ledgers[run := ledgers[run] + Entries(results)];
    DeletedStays(db, Advanced(db, run, batch, results), ledgers, grown, deleted);
  }

  lemma {:induction false} AdvanceKeepsPast(db: Db, ledgers: seq<Ledger>, deleted: map<int, Row>, run: nat, end: int,
                                            batch: seq<Address>, results: seq<Result>)
    requires Past(db, ledgers, deleted) && run < |db.runs| && run < |ledgers|
    requires ActiveRun(db, run, db.runs[run].cursor, end, Running)
    requires Written(db, db.runs[run].cursor, end, batch, results)
    ensures Past(Advanced(db, run, batch, results), ledgers[run := ledgers[run] + Entries(results)], deleted)
  {
    OpenPast(db, ledgers, deleted);
    OnlyRunsKeepsKeys(db, Advanced(db, run, batch, results));
    AdvanceKeepsRuns(db, run, end, batch, results);
    AdvanceKeepsLedgers(db, ledgers, deleted, run, end, batch, results);
    AdvanceKeepsDeleted(db, ledgers, deleted, run, batch, results);
  }

  // Deleting empty addresses.

  // A row the cleaner may take was counted by its completed run, and no answer of it blocked.
  lemma {:induction false} EligibleEntryIsEmpty(db: Db, ledgers: seq<Ledger>, deleted: map<int, Row>, cutoff: Time,
                                                id: int, i: nat)
    requires RunsOk(db) && LedgersOk(db, ledgers, deleted) && Eligible(db, cutoff, id)
    requires i < |db.runs| && db.runs[i].status.Completed? && db.runs[i].Covers(id)
    ensures Vindicated(db.runs, ledgers, id, db.rows[id].kind)
  {
    var run, ledger := db.runs[i], ledgers[i];
    assert RunOk(db, run) && LedgerOk(db, deleted, run, ledger);
    assert Counted(ledger, id);
    var k :| 0 <= k < |ledger| && ledger[k].id == id;
    assert EntryOk(db, deleted, run, ledger[k]);
    UnblockedIsEmpty(db, ledger[k]);
  }

  lemma {:induction false} UnblockedIsEmpty(db: Db, entry: Entry)
    requires Blocked(db, entry) && Answered(entry)
    requires forall key :: key in db.findings || key in db.retries ==> key.id != entry.id
    ensures Empty(entry)
  {}

  lemma {:induction false} CompletedLiesBelowActive(db: Db, i: nat, id: int)
    requires RunsOk(db) && i < |db.runs| && db.runs[i].status.Completed? && db.runs[i].Covers(id)
    ensures forall j :: 0 <= j < |db.runs| && !db.runs[j].status.Completed? ==> id < db.runs[j].start
  {
    forall j | 0 <= j < |db.runs| && !db.runs[j].status.Completed? ensures id < db.runs[j].start {
      assert i < j;
    }
  }

  lemma {:induction false} EligibleIsVindicated(db: Db, ledgers: seq<Ledger>, deleted: map<int, Row>, cutoff: Time,
                                                id: int)
    requires Past(db, ledgers, deleted) && Eligible(db, cutoff, id)
    ensures Vindicated(db.runs, ledgers, id, db.rows[id].kind)
    ensures forall i :: 0 <= i < |db.runs| && !db.runs[i].status.Completed? ==> id < db.runs[i].start
  {
    OpenPast(db, ledgers, deleted);
    var i :| 0 <= i < |db.runs| && db.runs[i].status.Completed? && db.runs[i].Covers(id);
    EligibleEntryIsEmpty(db, ledgers, deleted, cutoff, id, i);
    CompletedLiesBelowActive(db, i, id);
  }

  // What holds of deleted ids, whichever they are.
  ghost predicate Sweepable(db: Db, ledgers: seq<Ledger>, gone: set<int>) {
    && gone <= db.rows.Keys
    && (forall id :: id in gone ==> Vindicated(db.runs, ledgers, id, db.rows[id].kind))
    && (forall key :: key in db.findings || key in db.retries ==> key.id !in gone)
    && (forall id, i :: id in gone && 0 <= i < |db.runs| && !db.runs[i].status.Completed? ==> id < db.runs[i].start)
  }

  lemma {:induction false} CandidatesAreSweepable(db: Db, ledgers: seq<Ledger>, deleted: map<int, Row>, cutoff: Time,
                                                  limit: nat)
    requires Past(db, ledgers, deleted)
    ensures Sweepable(db, ledgers, set id | id in Candidates(db, cutoff, limit))
  {
    SelectIsPage(EligibleIds(db, cutoff), 0, db.nextId - 1, limit);
    var gone := set id | id in Candidates(db, cutoff, limit);
    forall id | id in gone
      ensures Eligible(db, cutoff, id) && Vindicated(db.runs, ledgers, id, db.rows[id].kind)
      ensures forall i :: 0 <= i < |db.runs| && !db.runs[i].status.Completed? ==> id < db.runs[i].start
    {
      assert id in Candidates(db, cutoff, limit);
      EligibleIsVindicated(db, ledgers, deleted, cutoff, id);
    }
    forall key | key in db.findings || key in db.retries ensures key.id !in gone {
      assert key.id in gone ==> Eligible(db, cutoff, key.id);
    }
    forall id | id in gone ensures id in db.rows { assert Eligible(db, cutoff, id); }
  }

  ghost function Buried(db: Db, deleted: map<int, Row>, gone: set<int>): map<int, Row> {
    deleted + map id | id in gone && id in db.rows :: db.rows[id]
  }

  lemma {:induction false} SweepKeepsLedger(db: Db, ledgers: seq<Ledger>, deleted: map<int, Row>, gone: set<int>,
                                            run: Run, ledger: Ledger)
    requires RunOk(db, run) && LedgerOk(db, deleted, run, ledger) && Sweepable(db, ledgers, gone)
    requires !run.status.Completed? ==> forall id :: id in gone ==> id < run.start
    ensures RunOk(Delete(db, gone), run) && LedgerOk(Delete(db, gone), Buried(db, deleted, gone), run, ledger)
  {
    forall k | 0 <= k < |ledger| ensures EntryOk(Delete(db, gone), Buried(db, deleted, gone), run, ledger[k]) {
      assert EntryOk(db, deleted, run, ledger[k]) && Blocked(db, ledger[k]);
    }
  }

  lemma {:induction false} SweepKeepsRuns(db: Db, ledgers: seq<Ledger>, deleted: map<int, Row>, gone: set<int>)
    requires RunsOk(db) && LedgersOk(db, ledgers, deleted) && Sweepable(db, ledgers, gone)
    ensures RunsOk(Delete(db, gone)) && LedgersOk(Delete(db, gone), ledgers, Buried(db, deleted, gone))
  {
    forall i | 0 <= i < |db.runs|
      ensures RunOk(Delete(db, gone), db.runs[i])
      ensures LedgerOk(Delete(db, gone), Buried(db, deleted, gone), db.runs[i], ledgers[i])
    {
      assert RunOk(db, db.runs[i]);
      SweepKeepsLedger(db, ledgers, deleted, gone, db.runs[i], ledgers[i]);
    }
  }

  lemma {:induction false} SweepKeepsDeleted(db: Db, ledgers: seq<Ledger>, deleted: map<int, Row>, gone: set<int>)
    requires IdsOk(db) && DeletedOk(db, ledgers, deleted) && Sweepable(db, ledgers, gone)
    ensures DeletedOk(Delete(db, gone), ledgers, Buried(db, deleted, gone))
  {
    var after := Buried(db, deleted, gone);
    forall id | id in after
      ensures id !in Delete(db, gone).rows && id < db.nextId && Vindicated(db.runs, ledgers, id, after[id].kind)
    {
      if id in gone { assert id in db.rows; }
    }
  }

  lemma {:induction false} SweepKeepsRows(db: Db, gone: set<int>)
    requires IdsOk(db) && RowsPlaced(db) && KeysOk(db)
    requires forall key :: key in db.findings || key in db.retries ==> key.id !in gone
    ensures IdsOk(Delete(db, gone)) && RowsPlaced(Delete(db, gone)) && KeysOk(Delete(db, gone))
  {
    forall id | id in Delete(db, gone).rows ensures Placed(Delete(db, gone), id) { assert Placed(db, id); }
  }

  lemma {:induction false} SweepKeepsPast(db: Db, ledgers: seq<Ledger>, deleted: map<int, Row>, gone: set<int>)
    requires Past(db, ledgers, deleted) && Sweepable(db, ledgers, gone)
    ensures Past(Delete(db, gone), ledgers, Buried(db, deleted, gone))
  {
    OpenPast(db, ledgers, deleted);
    SweepKeepsRows(db, gone);
    SweepKeepsRuns(db, ledgers, deleted, gone);
    SweepKeepsDeleted(db, ledgers, deleted, gone);
  }
}
