// The invariant of the scan protocol, and the facts about pages and batches its proof rests on.
module ProtocolInvariant {
  import opened Domain
  import opened Results
  import opened Tables
  import opened Protocol
  import H = Health
  import Pool
  import PoolInvariant

  // Serial ids below the sequence, and an identity index in step with the rows.
  ghost predicate IdsOk(db: Db) {
    && 1 <= db.nextId
    && (forall id :: id in db.rows ==> 1 <= id < db.nextId)
    && (forall id :: id in db.rows ==> db.rows[id].Key() in db.index && db.index[db.rows[id].Key()] == id)
    && (forall k :: k in db.index ==> db.index[k] in db.rows && db.rows[db.index[k]].Key() == k)
  }

  ghost predicate RunOk(db: Db, run: Run) {
    && 1 <= run.start <= run.end < db.nextId
    && run.start - 1 <= run.cursor <= run.end
    && (run.status.Completed? ==> run.cursor == run.end)
    && (!run.status.Completed? ==> run.end in db.rows)
  }

  // Run ranges are disjoint and increasing, and only the last run can be active.
  ghost predicate RunsOk(db: Db) {
    && (forall i :: 0 <= i < |db.runs| ==> RunOk(db, db.runs[i]))
    && (forall i, j :: 0 <= i < j < |db.runs| ==> db.runs[i].end < db.runs[j].start)
    && (forall i :: 0 <= i < |db.runs| - 1 ==> db.runs[i].status.Completed?)
  }

  // A row lies in the range of some run or above all of them.
  ghost predicate Placed(db: Db, id: int) {
    || (exists i :: 0 <= i < |db.runs| && db.runs[i].Covers(id))
    || (forall i :: 0 <= i < |db.runs| ==> db.runs[i].end < id)
  }

  ghost predicate RowsPlaced(db: Db) {
    forall id :: id in db.rows ==> Placed(db, id)
  }

  // Findings and retry rows refer to addresses that still exist.
  ghost predicate KeysOk(db: Db) {
    && (forall key :: key in db.retries ==> key.id in db.rows)
    && (forall key :: key in db.findings ==> key.id in db.rows)
  }

  // An error has a retry row and a positive balance has a finding.
  ghost predicate Blocked(db: Db, entry: Entry) {
    forall k :: 0 <= k < |entry.answers| && k < |ChainsFor(entry.kind)| ==>
      && (!entry.answers[k].Balance? ==> Key(entry.id, ChainsFor(entry.kind)[k]) in db.retries)
      && (entry.answers[k].Balance? && entry.answers[k].atomic > 0 ==>
            Key(entry.id, entry.answers[k].chain) in db.findings)
  }

  ghost predicate Counted(ledger: Ledger, id: int) {
    exists k :: 0 <= k < |ledger| && ledger[k].id == id
  }

  ghost predicate EntryOk(db: Db, deleted: map<int, Row>, run: Run, entry: Entry) {
    && run.start <= entry.id <= run.cursor
    && Answered(entry)
    && Blocked(db, entry)
    && (entry.id in db.rows ==> db.rows[entry.id].kind == entry.kind)
    && (entry.id !in db.rows ==> entry.id in deleted && deleted[entry.id].kind == entry.kind)
    && (!run.status.Completed? ==> entry.id in db.rows)
  }

  ghost predicate Distinct(ledger: Ledger) {
    forall j, k :: 0 <= j < k < |ledger| ==> ledger[j].id != ledger[k].id
  }

  function CountersOf(run: Run): Counters { Counters(run.processed, run.empty, run.positive, run.errors) }

  ghost predicate LedgerOk(db: Db, deleted: map<int, Row>, run: Run, ledger: Ledger) {
    && (forall k :: 0 <= k < |ledger| ==> EntryOk(db, deleted, run, ledger[k]))
    && Distinct(ledger)
    && (forall id :: id in db.rows && run.start <= id <= run.cursor ==> Counted(ledger, id))
    && CountersOf(run) == CountLedger(ledger)
  }

  ghost predicate LedgersOk(db: Db, ledgers: seq<Ledger>, deleted: map<int, Row>) {
    && |ledgers| == |db.runs|
    && forall i :: 0 <= i < |ledgers| ==> LedgerOk(db, deleted, db.runs[i], ledgers[i])
  }

  // The address was counted by a completed run with a non-positive balance on every chain of its type.
  ghost predicate Vindicated(runs: seq<Run>, ledgers: seq<Ledger>, id: int, kind: AddressType) {
    exists i, k :: 0 <= i < |ledgers| && i < |runs| && 0 <= k < |ledgers[i]|
      && runs[i].status.Completed?
      && ledgers[i][k].id == id && ledgers[i][k].kind == kind
      && Answered(ledgers[i][k]) && Empty(ledgers[i][k])
  }

  ghost predicate DeletedOk(db: Db, ledgers: seq<Ledger>, deleted: map<int, Row>) {
    forall id :: id in deleted ==>
      id !in db.rows && id < db.nextId && Vindicated(db.runs, ledgers, id, deleted[id].kind)
  }

  // The tables and the history agree.
  ghost predicate PastOk(db: Db, ledgers: seq<Ledger>, deleted: map<int, Row>) {
    && IdsOk(db) && RunsOk(db) && RowsPlaced(db) && KeysOk(db)
    && LedgersOk(db, ledgers, deleted) && DeletedOk(db, ledgers, deleted)
  }

  // The same, folded.
  ghost predicate Past(db: Db, ledgers: seq<Ledger>, deleted: map<int, Row>) {
    forall depth {:trigger Looking(depth)} :: Looking(depth) ==> PastOk(db, ledgers, deleted)
  }

  lemma {:induction false} OpenPast(db: Db, ledgers: seq<Ledger>, deleted: map<int, Row>)
    requires Past(db, ledgers, deleted)
    ensures PastOk(db, ledgers, deleted)
  {
    assert Looking(0);
  }

  // What the scanner's locals mean.

  ghost predicate AllCompleted(db: Db) {
    forall i :: 0 <= i < |db.runs| ==> db.runs[i].status.Completed?
  }

  ghost predicate ActiveRun(db: Db, run: nat, cursor: int, end: int, status: RunStatus) {
    && run < |db.runs| && run == |db.runs| - 1
    && db.runs[run].status == status && db.runs[run].cursor == cursor && db.runs[run].end == end
  }

  predicate IsRow(address: Address, row: Row) {
    address.kind == row.kind && address.text == row.text && address.tag == row.tag
  }

  ghost predicate Lists(batch: seq<Address>, id: int) { exists i :: 0 <= i < |batch| && batch[i].id == id }

  ghost predicate BatchOk(db: Db, cursor: int, end: int, batch: seq<Address>) {
    && batch != []
    && (forall i :: 0 <= i < |batch| ==>
          batch[i].id in db.rows && cursor < batch[i].id <= end && IsRow(batch[i], db.rows[batch[i].id]))
    && (forall i, j :: 0 <= i < j < |batch| ==> batch[i].id < batch[j].id)
    && (forall id :: id in db.rows && cursor < id <= batch[|batch| - 1].id ==> Lists(batch, id))
  }

  ghost predicate Done(db: Db, task: Task) {
    match task
    case Record(id, failure) => Key(id, failure.chain) in db.retries
    case Save(findings) => forall f :: f in findings ==> Key(f.id, f.chain) in db.findings
    case _ => true
  }

  ghost predicate DoneBefore(db: Db, tasks: seq<Task>, next: nat)
    requires next <= |tasks|
  {
    forall j :: 0 <= j < next ==> Done(db, tasks[j])
  }

  // The results of a batch, one for each of its addresses, and the writes that record them.
  ghost predicate ResultsFit(batch: seq<Address>, results: seq<Result>, tasks: seq<Task>) {
    && PoolInvariant.Owners(results) == multiset(batch)
    && PoolInvariant.ResultsOk(results)
    && tasks == Tasks(results)
  }

  ghost predicate ProcOk(db: Db, proc: Proc) {
    match proc
    case Idle => true
    case Resuming(run, cursor, end) => ActiveRun(db, run, cursor, end, Paused)
    case Planning => AllCompleted(db)
    case Planned(start, end) =>
      && AllCompleted(db)
      && start in db.rows && end in db.rows && start <= end
      && (forall i :: 0 <= i < |db.runs| ==> db.runs[i].end < start)
      && (forall id :: id in db.rows && (forall i :: 0 <= i < |db.runs| ==> db.runs[i].end < id) ==> start <= id)
    case Fetching(run, cursor, end) => ActiveRun(db, run, cursor, end, Running)
    case Completing(run) =>
      && run < |db.runs| && ActiveRun(db, run, db.runs[run].cursor, db.runs[run].end, Running)
      && forall id :: id in db.rows ==> !(db.runs[run].cursor < id <= db.runs[run].end)
    case Probing(run, cursor, end, batch) =>
      ActiveRun(db, run, cursor, end, Running) && BatchOk(db, cursor, end, batch)
    case Writing(run, cursor, end, batch, results, tasks, next) =>
      && ActiveRun(db, run, cursor, end, Running) && BatchOk(db, cursor, end, batch)
      && ResultsFit(batch, results, tasks)
      && next <= |tasks| && DoneBefore(db, tasks, next)
  }

  // Unless a batch has just asked for a pause, no chain has fallen ill since the run began.
  ghost predicate MindOk(proc: Proc, mind: Mind) {
    !proc.Idle? ==>
      && Pool.ValidSetup(mind.setup) && mind.width >= 1
      && (H.Unhealthy(mind.health) <= mind.sick || (proc.Writing? && Pausing(proc.results)))
  }

  ghost predicate Inv(w: World) {
    Past(w.db, w.ledgers, w.deleted) && ProcOk(w.db, w.proc) && MindOk(w.proc, w.mind)
  }

  // Pages and batches.

  lemma {:induction false} FetchedBatchIsOk(db: Db, cursor: int, end: int, limit: nat)
    requires limit >= 1
    ensures var batch := NextAddresses(db, cursor, end, limit);
            && |batch| <= limit
            && (|batch| < limit ==> forall id :: id in db.rows && cursor < id <= end ==> Lists(batch, id))
            && (if batch == [] then forall id :: id in db.rows ==> !(cursor < id <= end)
                else BatchOk(db, cursor, end, batch))
  {
    SelectIsPage(db.rows.Keys, cursor, end, limit);
    var ids := PageIds(db, cursor, end, limit);
    var batch := NextAddresses(db, cursor, end, limit);
    assert forall i :: 0 <= i < |ids| ==> ids[i] in ids && batch[i].id == ids[i];
    forall id | id in ids ensures Lists(batch, id) { PageIsListed(batch, ids, id); }
    if batch != [] { assert batch[|batch| - 1].id in ids; }
  }

  lemma {:induction false} PageIsListed(batch: seq<Address>, ids: seq<int>, id: int)
    requires id in ids && |batch| == |ids| && forall i :: 0 <= i < |ids| ==> batch[i].id == ids[i]
    ensures Lists(batch, id)
  {
    var i :| 0 <= i < |ids| && ids[i] == id;
    assert batch[i].id == id;
  }

  lemma {:induction false} OwnedOnce(results: seq<Result>, j: nat)
    requires j < |results|
    ensures PoolInvariant.Owners(results)[results[j].address] >= 1
  {
    var n := |results| - 1;
    if j < n { OwnedOnce(results[..n], j); }
  }

  lemma {:induction false} OwnedTwice(results: seq<Result>, j: nat, k: nat)
    requires j < k < |results| && results[j].address == results[k].address
    ensures PoolInvariant.Owners(results)[results[j].address] >= 2
  {
    var n := |results| - 1;
    if k < n { OwnedTwice(results[..n], j, k); } else { OwnedOnce(results[..n], j); }
  }

  lemma {:induction false} Owned(results: seq<Result>, address: Address) returns (k: nat)
    requires address in PoolInvariant.Owners(results)
    ensures k < |results| && results[k].address == address
  {
    var n := |results| - 1;
    if results[n].address == address { k := n; } else { k := Owned(results[..n], address); }
  }

  lemma {:induction false} AscendingMeansOnce(batch: seq<Address>, a: Address)
    requires forall i, j :: 0 <= i < j < |batch| ==> batch[i].id < batch[j].id
    ensures multiset(batch)[a] <= 1
  {
    if batch != [] {
      var n := |batch| - 1;
      AscendingMeansOnce(batch[..n], a);
      assert batch == batch[..n] + [batch[n]];
      assert batch[n] !in batch[..n];
    }
  }

  // A permuted batch has one result for each of its addresses.

  lemma {:induction false} ResultsAreFromBatch(batch: seq<Address>, results: seq<Result>)
    requires PoolInvariant.Owners(results) == multiset(batch)
    ensures forall k :: 0 <= k < |results| ==> results[k].address in batch
  {
    forall k | 0 <= k < |results| ensures results[k].address in batch {
      OwnedOnce(results, k);
      assert results[k].address in multiset(batch);
    }
  }

  lemma {:induction false} BatchIsCounted(batch: seq<Address>, results: seq<Result>, i: nat)
    requires PoolInvariant.Owners(results) == multiset(batch) && i < |batch|
    ensures Counted(Entries(results), batch[i].id)
  {
    assert batch[i] in multiset(batch);
    var k := Owned(results, batch[i]);
    assert Entries(results)[k].id == batch[i].id;
  }

  lemma {:induction false} ResultsDiffer(batch: seq<Address>, results: seq<Result>, j: nat, k: nat)
    requires PoolInvariant.Owners(results) == multiset(batch) && j < k < |results|
    requires forall i, j :: 0 <= i < j < |batch| ==> batch[i].id < batch[j].id
    ensures results[j].address.id != results[k].address.id
  {
    if results[j].address.id == results[k].address.id {
      ResultsAreFromBatch(batch, results);
      assert results[j].address == results[k].address;
      OwnedTwice(results, j, k);
      AscendingMeansOnce(batch, results[j].address);
    }
  }

  lemma {:induction false} ResultsMatchBatch(db: Db, cursor: int, end: int, batch: seq<Address>, results: seq<Result>)
    requires BatchOk(db, cursor, end, batch) && PoolInvariant.Owners(results) == multiset(batch)
    ensures Distinct(Entries(results))
    ensures forall k :: 0 <= k < |results| ==> results[k].address in batch
    ensures forall i :: 0 <= i < |batch| ==> Counted(Entries(results), batch[i].id)
  {
    ResultsAreFromBatch(batch, results);
    forall i | 0 <= i < |batch| ensures Counted(Entries(results), batch[i].id) {
      BatchIsCounted(batch, results, i);
    }
    forall j, k | 0 <= j < k < |results| ensures Entries(results)[j].id != Entries(results)[k].id {
      ResultsDiffer(batch, results, j, k);
    }
  }

  // The writes of a batch cover every error and every finding.

  lemma {:induction false} FailureHasTask(id: int, failures: seq<Failure>, failure: Failure)
    requires failure in failures
    ensures Record(id, failure) in FailureTasks(id, failures)
  {
    var n := |failures| - 1;
    if failures[n] != failure { FailureHasTask(id, failures[..n], failure); }
  }

  lemma {:induction false} ResultHasTasks(results: seq<Result>, k: nat, task: Task)
    requires k < |results| && task in ResultTasks(results[k])
    ensures task in Tasks(results)
  {
    var n := |results| - 1;
    if k < n { ResultHasTasks(results[..n], k, task); }
  }

  lemma {:induction false} WritesBlock(db: Db, results: seq<Result>, k: nat)
    requires k < |results| && FullyAnswered(results[k])
    requires forall j :: 0 <= j < |Tasks(results)| ==> Done(db, Tasks(results)[j])
    ensures Blocked(db, EntryOf(results[k]))
  {
    var result := results[k];
    var chains := ChainsFor(result.address.kind);
    assert forall task :: task in Tasks(results) ==> Done(db, task);
    forall i | 0 <= i < |result.answers|
      ensures !result.answers[i].Balance? ==> Key(result.address.id, chains[i]) in db.retries
      ensures result.answers[i].Balance? && result.answers[i].atomic > 0 ==>
                Key(result.address.id, result.answers[i].chain) in db.findings
    {
      AnswerIsListed(result.address.id, result.address.kind, result.answers, i);
      if !result.answers[i].Balance? {
        var failure := FailureFrom(chains[i], result.answers[i]);
        FailureHasTask(result.address.id, result.errors, failure);
        ResultHasTasks(results, k, Record(result.address.id, failure));
        assert Done(db, Record(result.address.id, failure));
      } else if result.answers[i].atomic > 0 {
        ResultHasTasks(results, k, Save(result.findings));
        assert Done(db, Save(result.findings));
      }
    }
  }

  // Counting.

  lemma {:induction false} SumsAgree(weight: Result -> nat, entryWeight: Entry -> nat, results: seq<Result>)
    requires forall i :: 0 <= i < |results| ==> weight(results[i]) == entryWeight(EntryOf(results[i]))
    ensures Sum(entryWeight, Entries(results)) == Sum(weight, results)
  {
    if results != [] {
      var n := |results| - 1;
      SumsAgree(weight, entryWeight, results[..n]);
      assert Entries(results)[..n] == Entries(results[..n]);
    }
  }

  lemma {:induction false} CountOfEntries(results: seq<Result>)
    requires PoolInvariant.ResultsOk(results)
    ensures CountLedger(Entries(results)) == Count(results)
  {
    assert forall i :: 0 <= i < |results| ==> FullyAnswered(results[i]);
    SumsAgree(EmptyResult, EmptyEntry, results);
    SumsAgree(ResultFindings, EntryFindings, results);
    SumsAgree(ResultErrors, EntryErrors, results);
  }

  lemma {:induction false} CountLedgerAppends(a: Ledger, b: Ledger)
    ensures CountLedger(a + b) == CountLedger(a).Plus(CountLedger(b))
  {
    SumAppends(EmptyEntry, a, b);
    SumAppends(EntryFindings, a, b);
    SumAppends(EntryErrors, a, b);
  }
}
