// The durable scan protocol: one scanner process, importers, the cleaner and the retry tool
// acting on the tables in atomic steps, with crashes of the scanner between any two of them.
module Protocol {
  import opened Domain
  import opened Results
  import opened Tables
  import Attempts
  import H = Health
  import Pool
  import PoolRuns

  // The writes that follow from one batch, in the order the scanner makes them.

  // A permanently invalid address is recorded and closed at once.
  function FailureStep(id: int, failure: Failure): seq<Task> {
    if failure.code == "invalid_address" then [Record(id, failure), Close(Key(id, failure.chain))]
    else [Record(id, failure)]
  }

  function FailureTasks(id: int, failures: seq<Failure>): seq<Task> {
    if failures == [] then [] else
      var n := |failures| - 1;
      FailureTasks(id, failures[..n]) + FailureStep(id, failures[n])
  }

  function AlertTasks(alerts: seq<NodeAlert>): seq<Task> {
    if alerts == [] then [] else
      var n := |alerts| - 1;
      AlertTasks(alerts[..n]) + [Incident(alerts[n]), NodeEvent(alerts[n])]
  }

  function ResultTasks(result: Result): seq<Task> {
    FailureTasks(result.address.id, result.errors) + AlertTasks(result.alerts) + [Save(result.findings)]
  }

  function Tasks(results: seq<Result>): seq<Task> {
    if results == [] then [] else Tasks(results[..|results| - 1]) + ResultTasks(results[|results| - 1])
  }

  predicate Pausing(results: seq<Result>) {
    exists i :: 0 <= i < |results| && results[i].pause
  }

  // The counters of a batch.

  datatype Counters = Counters(processed: nat, empty: nat, positive: nat, errors: nat)
  {
    function Plus(other: Counters): Counters {
      Counters(processed + other.processed, empty + other.empty,
               positive + other.positive, errors + other.errors)
    }
  }

  function CountOne(findings: nat, errors: nat): Counters {
    Counters(1, if findings == 0 && errors == 0 then 1 else 0, findings, errors)
  }

  function EmptyResult(result: Result): nat { if |result.findings| == 0 && |result.errors| == 0 then 1 else 0 }

  function ResultFindings(result: Result): nat { |result.findings| }

  function ResultErrors(result: Result): nat { |result.errors| }

  function Count(results: seq<Result>): Counters {
    Counters(|results|, Sum(EmptyResult, results), Sum(ResultFindings, results), Sum(ResultErrors, results))
  }

  // History: what the scanner counted, run by run.

  datatype Entry = Entry(id: int, kind: AddressType, answers: seq<Reply>)

  type Ledger = seq<Entry>

  function EntryOf(result: Result): Entry {
    Entry(result.address.id, result.address.kind, result.answers)
  }

  function Entries(results: seq<Result>): (entries: seq<Entry>)
    ensures |entries| == |results|
    ensures forall i :: 0 <= i < |results| ==> entries[i] == EntryOf(results[i])
  {
    if results == [] then [] else Entries(results[..|results| - 1]) + [EntryOf(results[|results| - 1])]
  }

  predicate Answered(entry: Entry) {
    |entry.answers| == |ChainsFor(entry.kind)|
  }

  function EntryFindings(entry: Entry): nat { |FindingsOf(entry.id, entry.answers)| }

  function EntryErrors(entry: Entry): nat {
    if Answered(entry) then |ErrorsOf(entry.kind, entry.answers)| else 0
  }

  function EmptyEntry(entry: Entry): nat { if EntryFindings(entry) == 0 && EntryErrors(entry) == 0 then 1 else 0 }

  function CountLedger(ledger: Ledger): Counters {
    Counters(|ledger|, Sum(EmptyEntry, ledger), Sum(EntryFindings, ledger), Sum(EntryErrors, ledger))
  }

  predicate Empty(entry: Entry) {
    forall k :: 0 <= k < |entry.answers| ==> entry.answers[k].Balance? && entry.answers[k].atomic <= 0
  }

  // The scanner process: its program point and the locals that matter there.
  datatype Proc =
    | Idle
    | Resuming(run: nat, cursor: int, end: int)
    | Planning
    | Planned(start: int, end: int)
    | Fetching(run: nat, cursor: int, end: int)
    | Completing(run: nat)
    | Probing(run: nat, cursor: int, end: int, batch: seq<Address>)
    | Writing(run: nat, cursor: int, end: int, batch: seq<Address>, results: seq<Result>,
              tasks: seq<Task>, next: nat)

  // The scanner object: its configuration and its health book, and the chains that were unhealthy when the run began.
  datatype Mind = Mind(setup: Pool.Setup, width: nat, health: H.Book, sick: set<Chain>)

  const BLANK := Mind(Pool.Setup({}, map[], Attempts.Policy(0, 0), 1), 1, map[], {})

  datatype World = World(db: Db, proc: Proc, mind: Mind, ledgers: seq<Ledger>, deleted: map<int, Row>)

  const GENESIS := World(EMPTY, Idle, BLANK, [], map[])

  datatype Event =
    // other processes
    | Import(rows: seq<Row>)
    | RolledBack(count: nat)
    | Sweep(cutoff: Time, limit: nat)
    | Tool(task: Task, at: Time)
    // the scanner
    | Crash
    | Begin(setup: Pool.Setup, width: nat, health: H.Book)
    | Resume
    | Plan
    | Create
    | Fetch(limit: nat)
    | Complete(now: Time)
    | Probe(results: seq<Result>, health: H.Book)
    | Write(now: Time)
    | Pause
    | Advance
  {
    predicate External() { Import? || RolledBack? || Sweep? || Tool? }
  }

  ghost predicate Enabled(w: World, e: Event) {
    match e
    case Import(_) => true
    case RolledBack(_) => true
    case Sweep(_, _) => true
    case Tool(task, _) => Permitted(w.db, task)
    case Crash => true
    case Begin(setup, width, _) => w.proc.Idle? && Pool.ValidSetup(setup) && width >= 1
    case Resume => w.proc.Resuming? && w.proc.run < |w.db.runs|
    case Plan => w.proc.Planning?
    case Create => w.proc.Planned?
    case Fetch(limit) => w.proc.Fetching? && limit >= 1
    case Complete(_) => w.proc.Completing? && w.proc.run < |w.db.runs|
    case Probe(results, health) =>
      && w.proc.Probing?
      && PoolRuns.Outcome(w.mind.setup, w.proc.batch, w.mind.width, w.mind.health, results, health)
    case Write(_) =>
      && w.proc.Writing? && w.proc.next < |w.proc.tasks|
      && Permitted(w.db, w.proc.tasks[w.proc.next])
    case Pause =>
      && w.proc.Writing? && w.proc.next == |w.proc.tasks| && Pausing(w.proc.results)
      && w.proc.run < |w.db.runs|
    case Advance =>
      && w.proc.Writing? && w.proc.next == |w.proc.tasks| && !Pausing(w.proc.results)
      && w.proc.run < |w.db.runs| && w.proc.run < |w.ledgers| && w.proc.batch != []
  }

  // Where a run begins: with the active run, if there is one.
  function FirstStep(runs: seq<Run>): Proc {
    match ActiveScan(runs)
    case None => Planning
    case Some(i) =>
      if runs[i].status.Paused? then Resuming(i, runs[i].cursor, runs[i].end)
      else Fetching(i, runs[i].cursor, runs[i].end)
  }

  // A failed check is put off by the base delay.
  function RetryTime(mind: Mind, now: Time): Time { now + mind.setup.policy.baseDelay }

  ghost function Apply(w: World, e: Event): World
    requires Enabled(w, e)
  {
    match e
    case Import(rows) => w.(db := InsertAll(w.db, rows).0)
    case RolledBack(count) => w.(db := w.db.(nextId := w.db.nextId + count))
    case Sweep(cutoff, limit) =>
      var gone := set id | id in Candidates(w.db, cutoff, limit);
      w.(db := Clean(w.db, cutoff, limit),
         deleted := w.deleted + map id | id in gone && id in w.db.rows :: w.db.rows[id])
    case Tool(task, at) => w.(db := Execute(w.db, task, at))
    case Crash => w.(proc := Idle, mind := BLANK)
    case Begin(setup, width, health) =>
      w.(proc := FirstStep(w.db.runs), mind := Mind(setup, width, health, H.Unhealthy(health)))
    case Resume =>
      w.(db := SetStatus(w.db, w.proc.run, Paused, Running, 0),
         proc := Fetching(w.proc.run, w.proc.cursor, w.proc.end))
    case Plan =>
      (match UnscannedRange(w.db)
       case None => w.(proc := Idle)
       case Some((start, end)) => w.(proc := Planned(start, end)))
    case Create =>
      w.(db := CreateScan(w.db, w.proc.start, w.proc.end), ledgers := w.ledgers + [[]],
         proc := Fetching(|w.db.runs|, w.proc.start - 1, w.proc.end))
    case Fetch(limit) =>
      var batch := NextAddresses(w.db, w.proc.cursor, w.proc.end, limit);
      w.(proc := if batch == [] then Completing(w.proc.run)
                 else Probing(w.proc.run, w.proc.cursor, w.proc.end, batch))
    case Complete(now) => w.(db := SetStatus(w.db, w.proc.run, Running, Completed, now), proc := Idle)
    case Probe(results, health) =>
      w.(proc := Writing(w.proc.run, w.proc.cursor, w.proc.end, w.proc.batch, results, Tasks(results), 0),
         mind := w.mind.(health := health))
    case Write(now) =>
      w.(db := Execute(w.db, w.proc.tasks[w.proc.next], RetryTime(w.mind, now)),
         proc := w.proc.(next := w.proc.next + 1))
    case Pause => w.(db := SetStatus(w.db, w.proc.run, Running, Paused, 0), proc := Idle)
    case Advance =>
      var cursor := w.proc.batch[|w.proc.batch| - 1].id;
      var counters := Count(w.proc.results);
      w.(db := AdvanceScan(w.db, w.proc.run, cursor, counters.processed, counters.empty,
                           counters.positive, counters.errors),
         ledgers := w.ledgers[w.proc.run := w.ledgers[w.proc.run] + Entries(w.proc.results)],
         proc := Fetching(w.proc.run, cursor, w.proc.end))
  }

  // A run of the system: every event is enabled where it happens.
  ghost predicate Possible(w: World, events: seq<Event>)
    decreases |events|, 0
  {
    events == [] ||
    var n := |events| - 1;
    Possible(w, events[..n]) && Enabled(End(w, events[..n]), events[n])
  }

  ghost function End(w: World, events: seq<Event>): World
    requires Possible(w, events)
    decreases |events|, 1
  {
    if events == [] then w
    else
      var n := |events| - 1;
      Apply(End(w, events[..n]), events[n])
  }
}
