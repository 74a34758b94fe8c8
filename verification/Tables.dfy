// The durable tables and the effect of each SQL statement on them.
module Tables {
  import opened Domain
  import opened Results

  datatype Option<T> = None | Some(value: T)

  type Time = int

  datatype Identity = Identity(kind: AddressType, normalized: string)

  datatype Row = Row(kind: AddressType, text: string, normalized: string, tag: string)
  {
    function Key(): Identity { Identity(kind, normalized) }
  }

  datatype RunStatus = Running | Paused | Completed

  datatype Run = Run(start: int, end: int, cursor: int, status: RunStatus,
                     processed: nat, empty: nat, positive: nat, errors: nat, completedAt: Time)
  {
    predicate Covers(id: int) { start <= id <= end }
  }

  datatype Key = Key(id: int, chain: Chain)

  datatype Retry = Retry(serial: nat, code: string, provider: string, attempts: nat,
                         nextAt: Time, message: string, resolved: bool)

  datatype Stored = Stored(atomic: int, symbol: string)

  datatype Notice = FirstPositive(key: Key) | BalanceChanged(key: Key) | NodeError(alert: NodeAlert)

  // rows is wallet_addresses and index its unique constraint; runs are in order of creation.
  datatype Db = Db(
    nextId: nat, rows: map<int, Row>, index: map<Identity, int>,
    runs: seq<Run>,
    nextRetry: nat, retries: map<Key, Retry>,
    findings: map<Key, Stored>,
    notices: seq<Notice>, incidents: seq<NodeAlert>)

  const EMPTY := Db(1, map[], map[], [], 1, map[], map[], [], [])

  // Statements that select rows.

  // The ids of a set within (low, high], in ascending order, at most limit of them.
  function Select(ids: set<int>, low: int, high: int, limit: nat): seq<int>
    decreases high - low
  {
    if limit == 0 || low >= high then []
    else if low + 1 in ids then [low + 1] + Select(ids, low + 1, high, limit - 1)
    else Select(ids, low + 1, high, limit)
  }

  ghost predicate Ascending(ids: seq<int>) {
    forall i, j :: 0 <= i < j < |ids| ==> ids[i] < ids[j]
  }

  // Keyset pagination: a sorted page that skips no id up to its last one.
  lemma {:induction false} SelectIsPage(ids: set<int>, low: int, high: int, limit: nat)
    ensures var page := Select(ids, low, high, limit);
            && Ascending(page)
            && |page| <= limit
            && (forall id :: id in page ==> id in ids && low < id <= high)
            && (forall id :: id in ids && low < id <= high && id !in page ==>
                  |page| == limit && forall p :: p in page ==> p < id)
    decreases high - low
  {
    if limit != 0 && low < high {
      if low + 1 in ids {
        SelectIsPage(ids, low + 1, high, limit - 1);
        PrependIsAscending(low + 1, Select(ids, low + 1, high, limit - 1));
      } else {
        SelectIsPage(ids, low + 1, high, limit);
      }
    }
  }

  lemma {:induction false} PrependIsAscending(first: int, rest: seq<int>)
    requires Ascending(rest) && forall id :: id in rest ==> first < id
    ensures Ascending([first] + rest)
    ensures forall id :: id in [first] + rest <==> id == first || id in rest
  {
    assert forall i :: 0 <= i < |rest| ==> rest[i] in rest;
  }

  function ToAddress(db: Db, id: int): Address
    requires id in db.rows
  {
    Address(id, db.rows[id].kind, db.rows[id].text, db.rows[id].tag)
  }

  function ToAddresses(db: Db, ids: seq<int>): (batch: seq<Address>)
    requires forall id :: id in ids ==> id in db.rows
    ensures |batch| == |ids|
    ensures forall i :: 0 <= i < |ids| ==> batch[i] == ToAddress(db, ids[i])
  {
    if ids == [] then [] else [ToAddress(db, ids[0])] + ToAddresses(db, ids[1..])
  }

  function PageIds(db: Db, cursor: int, end: int, limit: nat): (ids: seq<int>)
    ensures forall id :: id in ids ==> id in db.rows
  {
    SelectIsPage(db.rows.Keys, cursor, end, limit);
    Select(db.rows.Keys, cursor, end, limit)
  }

  function NextAddresses(db: Db, cursor: int, end: int, limit: nat): seq<Address> {
    ToAddresses(db, PageIds(db, cursor, end, limit))
  }

  // The first run that is running or paused.
  function ActiveScan(runs: seq<Run>): (active: Option<nat>)
    ensures active.None? ==> forall i :: 0 <= i < |runs| ==> runs[i].status.Completed?
    ensures active.Some? ==> active.value < |runs| && !runs[active.value].status.Completed?
    ensures active.Some? ==> forall i :: 0 <= i < active.value ==> runs[i].status.Completed?
  {
    if runs == [] then None
    else
      var n := |runs| - 1;
      var earlier := ActiveScan(runs[..n]);
      if earlier.Some? then earlier else if runs[n].status.Completed? then None else Some(n)
  }

  // The greatest end of a completed run, zero when there is none.
  function LastEnd(runs: seq<Run>): (last: int)
    ensures last >= 0
    ensures forall i :: 0 <= i < |runs| && runs[i].status.Completed? ==> runs[i].end <= last
    ensures last == 0 || exists i :: 0 <= i < |runs| && runs[i].status.Completed? && runs[i].end == last
  {
    if runs == [] then 0
    else
      var n := |runs| - 1;
      var earlier := LastEnd(runs[..n]);
      if runs[n].status.Completed? && runs[n].end > earlier then runs[n].end else earlier
  }

  function GreatestUpTo(ids: set<int>, low: int, high: int): (greatest: Option<int>)
    ensures greatest.None? ==> forall id :: id in ids && low < id ==> high < id
    ensures greatest.Some? ==> greatest.value in ids && low < greatest.value <= high
    ensures greatest.Some? ==> forall id :: id in ids && id <= high ==> id <= greatest.value
    decreases high - low
  {
    if high <= low then None else if high in ids then Some(high) else GreatestUpTo(ids, low, high - 1)
  }

  // The least and greatest row ids above every completed run.
  function UnscannedRange(db: Db): Option<(int, int)> {
    var last := LastEnd(db.runs);
    var least := Select(db.rows.Keys, last, db.nextId - 1, 1);
    var greatest := GreatestUpTo(db.rows.Keys, last, db.nextId - 1);
    if least == [] || greatest.None? then None else Some((least[0], greatest.value))
  }

  // Statements that change rows.

  // One row of an import. A conflicting insert uses up a serial value and yields the stored id.
  function Insert(db: Db, row: Row): (Db, int) {
    var after := db.(nextId := db.nextId + 1);
    if row.Key() in db.index then (after, db.index[row.Key()])
    else (after.(rows := db.rows[db.nextId := row], index := db.index[row.Key() := db.nextId]), db.nextId)
  }

  lemma {:induction false} InsertCounts(db: Db, row: Row)
    requires db.nextId !in db.rows
    ensures |Insert(db, row).0.rows| == |db.rows| + if row.Key() in db.index then 0 else 1
  {}

  function InsertAll(db: Db, rows: seq<Row>): (Db, seq<int>) {
    if rows == [] then (db, []) else
      var n := |rows| - 1;
      var (before, ids) := InsertAll(db, rows[..n]);
      var (after, id) := Insert(before, rows[n]);
      (after, ids + [id])
  }

  function CreateScan(db: Db, start: int, end: int): Db {
    db.(runs := db.runs + [Run(start, end, start - 1, Running, 0, 0, 0, 0, 0)])
  }

  function AdvanceScan(db: Db, run: nat, cursor: int, processed: nat, empty: nat, positive: nat, errors: nat): Db
    requires run < |db.runs|
  {
    var r := db.runs[run];
    if !r.status.Running? then db else
      db.(runs := db.runs[run := r.(cursor := cursor, processed := r.processed + processed, empty := r.empty + empty,
                                    positive := r.positive + positive, errors := r.errors + errors)])
  }

  function SetStatus(db: Db, run: nat, from: RunStatus, to: RunStatus, now: Time): Db
    requires run < |db.runs|
  {
    var r := db.runs[run];
    if r.status != from then db else
      db.(runs := db.runs[run := r.(status := to, completedAt := if to.Completed? then now else r.completedAt)])
  }

  // A write the scanner or the retry tool makes for one address.
  datatype Task =
    | Record(id: int, failure: Failure)
    | Close(key: Key)
    | Incident(alert: NodeAlert)
    | NodeEvent(alert: NodeAlert)
    | Save(findings: seq<Finding>)

  // Foreign keys and check constraints that a write must satisfy.
  predicate Permitted(db: Db, task: Task) {
    match task
    case Record(id, _) => id in db.rows
    case Save(findings) => forall f :: f in findings ==> f.id in db.rows && f.atomic > 0
    case _ => true
  }

  function RecordRetry(db: Db, id: int, failure: Failure, nextAt: Time): Db {
    var key := Key(id, failure.chain);
    var entry :=
      if key in db.retries then
        db.retries[key].(code := failure.code, provider := failure.provider, message := failure.message,
                         attempts := db.retries[key].attempts + 1, nextAt := nextAt, resolved := false)
      else
        Retry(db.nextRetry, failure.code, failure.provider, 1, nextAt, failure.message, false);
    db.(retries := db.retries[key := entry], nextRetry := db.nextRetry + 1)
  }

  function CloseRetry(db: Db, key: Key): Db {
    if key in db.retries then db.(retries := db.retries[key := db.retries[key].(resolved := true)]) else db
  }

  // The running state of one SavePositiveFindings transaction.
  datatype Saving = Saving(findings: map<Key, Stored>, changed: Option<Key>, createdAny: bool)

  function Upsert(saving: Saving, finding: Finding): Saving {
    var key := Key(finding.id, finding.chain);
    var created := key !in saving.findings;
    var changed := created || saving.findings[key].atomic != finding.atomic;
    Saving(saving.findings[key := Stored(finding.atomic, finding.symbol)],
           if changed && saving.changed.None? then Some(key) else saving.changed,
           saving.createdAny || created)
  }

  function UpsertAll(saving: Saving, findings: seq<Finding>): Saving {
    if findings == [] then saving
    else Upsert(UpsertAll(saving, findings[..|findings| - 1]), findings[|findings| - 1])
  }

  function SaveFindings(db: Db, findings: seq<Finding>): Db {
    var saving := UpsertAll(Saving(db.findings, None, false), findings);
    db.(findings := saving.findings,
        notices := if saving.changed.None? then db.notices
                   else db.notices + [if saving.createdAny then FirstPositive(saving.changed.value)
                                      else BalanceChanged(saving.changed.value)])
  }

  function Execute(db: Db, task: Task, at: Time): Db {
    match task
    case Record(id, failure) => RecordRetry(db, id, failure, at)
    case Close(key) => CloseRetry(db, key)
    case Incident(alert) => db.(incidents := db.incidents + [alert])
    case NodeEvent(alert) => db.(notices := db.notices + [NodeError(alert)])
    case Save(findings) => SaveFindings(db, findings)
  }

  // Several writes in order.
  function Played(db: Db, tasks: seq<Task>, at: Time): Db {
    if tasks == [] then db else Execute(Played(db, tasks[..|tasks| - 1], at), tasks[|tasks| - 1], at)
  }

  // The cleaner's candidates: in a completed run older than the cutoff, with no finding and no retry row.
  predicate Eligible(db: Db, cutoff: Time, id: int) {
    && id in db.rows
    && (exists i :: 0 <= i < |db.runs| && db.runs[i].status.Completed? && db.runs[i].completedAt < cutoff
          && db.runs[i].Covers(id))
    && (forall key :: key in db.findings ==> key.id != id)
    && (forall key :: key in db.retries ==> key.id != id)
  }

  function EligibleIds(db: Db, cutoff: Time): set<int> {
    set id | id in db.rows && Eligible(db, cutoff, id)
  }

  function Candidates(db: Db, cutoff: Time, limit: nat): seq<int> {
    Select(EligibleIds(db, cutoff), 0, db.nextId - 1, limit)
  }

  function Delete(db: Db, ids: set<int>): Db {
    db.(rows := db.rows - ids, index := map k | k in db.index && db.index[k] !in ids :: db.index[k])
  }

  function Clean(db: Db, cutoff: Time, limit: nat): Db {
    Delete(db, set id | id in Candidates(db, cutoff, limit))
  }
}
