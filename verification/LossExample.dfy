// A history that loses a positive balance: the first scan of an address fails, the retry succeeds, and the retry tool
// stops between its two writes.
module LossExample {
  import opened Domain
  import opened Results
  import opened Tables
  import opened Protocol
  import opened ProtocolInvariant
  import opened ProtocolMoves
  import opened Operators
  import opened LostFindings
  import H = Health
  import Pool
  import PoolRuns

  const ROW := Row(BTC, "1BoatSLRHtKNngkdXEeobR76b53LETtpyT", "1BoatSLRHtKNngkdXEeobR76b53LETtpyT", "")
  const ADDRESS := Address(1, BTC, ROW.text, ROW.tag)
  const FRESH := Result(ADDRESS, [], [], [], false, [])
  const KEY := Key(1, Bitcoin)

  // A scanner with a limited bitcoin provider, which one failure does not make unhealthy.
  ghost predicate Usual(setup: Pool.Setup) {
    Pool.ValidSetup(setup) && Bitcoin in setup.providers && Bitcoin in setup.sizes && setup.threshold >= 2
  }

  // An error that is not worth another attempt and says nothing about the address.
  predicate Permanent(error: ProviderError) { !error.temporary && error.code != "invalid_address" }

  function Failing(error: ProviderError): Failure { FailureFrom(Bitcoin, Classified(error)) }

  function Failed(error: ProviderError): Result {
    Result(ADDRESS, [], [Failing(error)], [], false, [Classified(error)])
  }

  function OneFailure(): H.Book { map[Bitcoin := H.ChainHealth(1, false, false)] }

  // The pool: one worker, one address, one provider call.

  function Begun(todo: seq<Address>, worker: Pool.Phase, slots: map<Chain, nat>, health: H.Book): Pool.State {
    Pool.State(todo, false, [worker], slots, [], 1, false, [], false, health, false)
  }

  function Ending(jobsClosed: bool, worker: Pool.Phase, buffer: seq<Result>, resultsClosed: bool,
                  collected: seq<Result>, done: bool): Pool.State {
    Pool.State([], jobsClosed, [worker], map[Bitcoin := 0], buffer, 1, resultsClosed, collected, done, OneFailure(),
               false)
  }

  ghost predicate Takes(setup: Pool.Setup, s: Pool.State, actor: Pool.Actor, reply: Reply, next: Pool.State) {
    && (forall i :: 0 <= i < |s.workers| ==> Pool.PhaseOk(setup, s.workers[i]))
    && Pool.Enabled(setup, s, actor) && Pool.Apply(setup, s, actor, Pool.Input(reply, false)) == next
  }

  ghost predicate Reaches(setup: Pool.Setup, s: Pool.State, end: Pool.State) {
    exists schedule :: PoolRuns.Allowed(setup, s, schedule) && PoolRuns.After(setup, s, schedule) == end
  }

  lemma {:induction false} Prepend(setup: Pool.Setup, s: Pool.State, actor: Pool.Actor, reply: Reply,
                                   next: Pool.State, end: Pool.State)
    requires Takes(setup, s, actor, reply, next) && Reaches(setup, next, end)
    ensures Reaches(setup, s, end)
  {
    var rest :| PoolRuns.Allowed(setup, next, rest) && PoolRuns.After(setup, next, rest) == end;
    var schedule := [(actor, Pool.Input(reply, false))] + rest;
    assert schedule[1..] == rest;
    assert PoolRuns.Allowed(setup, s, schedule) && PoolRuns.After(setup, s, schedule) == end;
  }

  lemma {:induction false} AddressIsTaken(setup: Pool.Setup, reply: Reply)
    ensures Takes(setup, Begun([ADDRESS], Pool.Waiting, map[], map[]), Pool.Worker(0), reply,
                  Begun([], Pool.Next(FRESH), map[], map[]))
  {}

  lemma {:induction false} CallIsQueued(setup: Pool.Setup, reply: Reply)
    requires Usual(setup)
    ensures Takes(setup, Begun([], Pool.Next(FRESH), map[], map[]), Pool.Worker(0), reply,
                  Begun([], Pool.Queued(FRESH, 0), map[], map[]))
  {}

  lemma {:induction false} CallIsMade(setup: Pool.Setup, reply: Reply)
    requires Usual(setup)
    ensures Takes(setup, Begun([], Pool.Queued(FRESH, 0), map[], map[]), Pool.Worker(0), reply,
                  Begun([], Pool.Calling(FRESH, 0), map[Bitcoin := 1], map[]))
  {}

  lemma {:induction false} CallReturns(setup: Pool.Setup, reply: Reply)
    requires Usual(setup)
    ensures Takes(setup, Begun([], Pool.Calling(FRESH, 0), map[Bitcoin := 1], map[]), Pool.Worker(0), reply,
                  Begun([], Pool.Replied(FRESH, 0, reply), map[Bitcoin := 0], map[]))
  {
    assert map[Bitcoin := 1][Bitcoin := 0] == map[Bitcoin := 0];
  }

  lemma {:induction false} CallIsRefused(setup: Pool.Setup, error: ProviderError)
    requires Usual(setup) && Permanent(error)
    ensures Takes(setup, Begun([], Pool.Replied(FRESH, 0, Classified(error)), map[Bitcoin := 0], map[]),
                  Pool.Worker(0), Classified(error),
                  Begun([], Pool.Refused(FRESH, Classified(error)), map[Bitcoin := 0], OneFailure()))
    ensures Takes(setup, Begun([], Pool.Refused(FRESH, Classified(error)), map[Bitcoin := 0], OneFailure()),
                  Pool.Worker(0), Classified(error),
                  Begun([], Pool.Next(Failed(error)), map[Bitcoin := 0], OneFailure()))
  {
    assert H.Fail(map[], Bitcoin, setup.threshold) == OneFailure();
    assert H.Touch(OneFailure(), Bitcoin) == OneFailure();
    assert FRESH.answers + [Classified(error)] == Failed(error).answers;
    assert FRESH.errors + [Failing(error)] == Failed(error).errors;
    assert WithAnswer(FRESH, Classified(error)) == Failed(error);
  }

  lemma {:induction false} ResultIsSent(setup: Pool.Setup, result: Result, reply: Reply)
    requires result.address == ADDRESS && |result.answers| == 1
    ensures Takes(setup, Begun([], Pool.Next(result), map[Bitcoin := 0], OneFailure()), Pool.Worker(0), reply,
                  Ending(false, Pool.Sending(result), [], false, [], false))
    ensures Takes(setup, Ending(false, Pool.Sending(result), [], false, [], false), Pool.Worker(0), reply,
                  Ending(false, Pool.Waiting, [result], false, [], false))
  {}

  lemma {:induction false} JobsEnd(setup: Pool.Setup, result: Result, reply: Reply)
    ensures Takes(setup, Ending(false, Pool.Waiting, [result], false, [], false), Pool.Feeder, reply,
                  Ending(true, Pool.Waiting, [result], false, [], false))
    ensures Takes(setup, Ending(true, Pool.Waiting, [result], false, [], false), Pool.Worker(0), reply,
                  Ending(true, Pool.Exited, [result], false, [], false))
    ensures Takes(setup, Ending(true, Pool.Exited, [result], false, [], false), Pool.Feeder, reply,
                  Ending(true, Pool.Exited, [result], true, [], false))
  {}

  lemma {:induction false} ResultsEnd(setup: Pool.Setup, result: Result, reply: Reply)
    ensures Takes(setup, Ending(true, Pool.Exited, [result], true, [], false), Pool.Collector, reply,
                  Ending(true, Pool.Exited, [], true, [result], false))
    ensures Takes(setup, Ending(true, Pool.Exited, [], true, [result], false), Pool.Collector, reply,
                  Ending(true, Pool.Exited, [], true, [result], true))
  {}

  lemma {:induction false} LastSteps(setup: Pool.Setup, result: Result, reply: Reply)
    requires result.address == ADDRESS && |result.answers| == 1
    ensures Reaches(setup, Begun([], Pool.Next(result), map[Bitcoin := 0], OneFailure()),
                    Ending(true, Pool.Exited, [], true, [result], true))
  {
    var end := Ending(true, Pool.Exited, [], true, [result], true);
    var got := Ending(true, Pool.Exited, [], true, [result], false);
    var closed := Ending(true, Pool.Exited, [result], true, [], false);
    var exited := Ending(true, Pool.Exited, [result], false, [], false);
    var told := Ending(true, Pool.Waiting, [result], false, [], false);
    var sent := Ending(false, Pool.Waiting, [result], false, [], false);
    var sending := Ending(false, Pool.Sending(result), [], false, [], false);
    ResultIsSent(setup, result, reply);
    JobsEnd(setup, result, reply);
    ResultsEnd(setup, result, reply);
    assert PoolRuns.After(setup, end, []) == end;
    Prepend(setup, got, Pool.Collector, reply, end, end);
    Prepend(setup, closed, Pool.Collector, reply, got, end);
    Prepend(setup, exited, Pool.Feeder, reply, closed, end);
    Prepend(setup, told, Pool.Worker(0), reply, exited, end);
    Prepend(setup, sent, Pool.Feeder, reply, told, end);
    Prepend(setup, sending, Pool.Worker(0), reply, sent, end);
    Prepend(setup, Begun([], Pool.Next(result), map[Bitcoin := 0], OneFailure()), Pool.Worker(0), reply, sending, end);
  }

  lemma {:induction false} BatchFails(setup: Pool.Setup, error: ProviderError)
    requires Usual(setup) && Permanent(error)
    ensures PoolRuns.Outcome(setup, [ADDRESS], 1, map[], [Failed(error)], OneFailure())
  {
    var end := Ending(true, Pool.Exited, [], true, [Failed(error)], true);
    var reply := Classified(error);
    var start := Begun([ADDRESS], Pool.Waiting, map[], map[]);
    var taken := Begun([], Pool.Next(FRESH), map[], map[]);
    var queued := Begun([], Pool.Queued(FRESH, 0), map[], map[]);
    var calling := Begun([], Pool.Calling(FRESH, 0), map[Bitcoin := 1], map[]);
    var replied := Begun([], Pool.Replied(FRESH, 0, reply), map[Bitcoin := 0], map[]);
    var refused := Begun([], Pool.Refused(FRESH, reply), map[Bitcoin := 0], OneFailure());
    var answered := Begun([], Pool.Next(Failed(error)), map[Bitcoin := 0], OneFailure());
    AddressIsTaken(setup, reply);
    CallIsQueued(setup, reply);
    CallIsMade(setup, reply);
    CallReturns(setup, reply);
    CallIsRefused(setup, error);
    LastSteps(setup, Failed(error), reply);
    Prepend(setup, refused, Pool.Worker(0), reply, answered, end);
    Prepend(setup, replied, Pool.Worker(0), reply, refused, end);
    Prepend(setup, calling, Pool.Worker(0), reply, replied, end);
    Prepend(setup, queued, Pool.Worker(0), reply, calling, end);
    Prepend(setup, taken, Pool.Worker(0), reply, queued, end);
    Prepend(setup, start, Pool.Worker(0), reply, taken, end);
    OutcomeIsReached(setup, start, end, [Failed(error)], OneFailure());
  }

  lemma {:induction false} OutcomeIsReached(setup: Pool.Setup, start: Pool.State, end: Pool.State,
                                            results: seq<Result>, health: H.Book)
    requires start == Begun([ADDRESS], Pool.Waiting, map[], map[]) && Reaches(setup, start, end)
    requires PoolRuns.EndsWith(end, results, health)
    ensures PoolRuns.Outcome(setup, [ADDRESS], 1, map[], results, health)
  {
    assert Pool.Start([ADDRESS], 1, map[]) == start;
  }

  // The protocol: the tables after each event.

  const IMPORTED := Db(2, map[1 := ROW], map[ROW.Key() := 1], [], 1, map[], map[], [], [])
  const OPENED := IMPORTED.(runs := [Run(1, 1, 0, Running, 0, 0, 0, 0, 0)])

  function Recorded(error: ProviderError, mind: Mind): Db {
    RecordRetry(OPENED, 1, Failing(error), RetryTime(mind, 0))
  }

  function Counted(error: ProviderError, mind: Mind): Db {
    Recorded(error, mind).(runs := [Run(1, 1, 1, Running, 1, 0, 0, 1, 0)])
  }

  function MindOf(setup: Pool.Setup, health: H.Book): Mind { Mind(setup, 1, health, {}) }

  function Scanning(db: Db, proc: Proc, mind: Mind): World { World(db, proc, mind, [[]], map[]) }

  function WritingAt(error: ProviderError, next: nat): Proc {
    Writing(0, 0, 1, [ADDRESS], [Failed(error)], [Record(1, Failing(error)), Save([])], next)
  }

  lemma {:induction false} ImportsIt()
    ensures Leads(GENESIS, Import([ROW]), World(IMPORTED, Idle, BLANK, [], map[]))
  {
    ImportLeads(GENESIS, [ROW]);
    assert [ROW][..0] == [];
    assert InsertAll(EMPTY, [ROW]).0 == IMPORTED;
  }

  lemma {:induction false} BeginsIt(setup: Pool.Setup)
    requires Usual(setup)
    ensures Leads(World(IMPORTED, Idle, BLANK, [], map[]), Begin(setup, 1, map[]),
                  World(IMPORTED, Planning, MindOf(setup, map[]), [], map[]))
  {
    BeginLeads(World(IMPORTED, Idle, BLANK, [], map[]), setup, 1, map[]);
    assert H.Unhealthy(map[]) == {};
  }

  lemma {:induction false} PlansIt(mind: Mind)
    ensures Leads(World(IMPORTED, Planning, mind, [], map[]), Plan, World(IMPORTED, Planned(1, 1), mind, [], map[]))
  {
    PlanLeads(World(IMPORTED, Planning, mind, [], map[]));
    assert Select(IMPORTED.rows.Keys, 0, 1, 1) == [1];
    assert UnscannedRange(IMPORTED) == Some((1, 1));
  }

  lemma {:induction false} OpensIt(mind: Mind)
    ensures Leads(World(IMPORTED, Planned(1, 1), mind, [], map[]), Create, Scanning(OPENED, Fetching(0, 0, 1), mind))
  {
    CreateLeads(World(IMPORTED, Planned(1, 1), mind, [], map[]));
  }

  lemma {:induction false} FetchesIt(mind: Mind)
    ensures Leads(Scanning(OPENED, Fetching(0, 0, 1), mind), Fetch(1),
                  Scanning(OPENED, Probing(0, 0, 1, [ADDRESS]), mind))
  {
    FetchLeads(Scanning(OPENED, Fetching(0, 0, 1), mind), 1);
    assert PageIds(OPENED, 0, 1, 1) == [1];
    assert NextAddresses(OPENED, 0, 1, 1) == [ADDRESS];
  }

  lemma {:induction false} WritesOfBatch(error: ProviderError)
    requires Permanent(error)
    ensures Tasks([Failed(error)]) == [Record(1, Failing(error)), Save([])]
  {
    assert [Failed(error)][..0] == [] && [Failing(error)][..0] == [];
    assert FailureTasks(1, [Failing(error)]) == [Record(1, Failing(error))];
  }

  lemma {:induction false} ProbesIt(setup: Pool.Setup, error: ProviderError)
    requires Usual(setup) && Permanent(error)
    ensures Leads(Scanning(OPENED, Probing(0, 0, 1, [ADDRESS]), MindOf(setup, map[])),
                  Probe([Failed(error)], OneFailure()),
                  Scanning(OPENED, WritingAt(error, 0), MindOf(setup, OneFailure())))
  {
    BatchFails(setup, error);
    WritesOfBatch(error);
    ProbeLeads(Scanning(OPENED, Probing(0, 0, 1, [ADDRESS]), MindOf(setup, map[])), [Failed(error)], OneFailure());
  }

  lemma {:induction false} WritesIt(error: ProviderError, mind: Mind)
    ensures Leads(Scanning(OPENED, WritingAt(error, 0), mind), Write(0),
                  Scanning(Recorded(error, mind), WritingAt(error, 1), mind))
    ensures Leads(Scanning(Recorded(error, mind), WritingAt(error, 1), mind), Write(0),
                  Scanning(Recorded(error, mind), WritingAt(error, 2), mind))
  {
    WriteLeads(Scanning(OPENED, WritingAt(error, 0), mind), 0);
    WriteLeads(Scanning(Recorded(error, mind), WritingAt(error, 1), mind), 0);
    assert SaveFindings(Recorded(error, mind), []) == Recorded(error, mind);
  }

  lemma {:induction false} CountsOne(result: Result)
    requires result.findings == [] && |result.errors| == 1
    ensures Count([result]) == Counters(1, 0, 0, 1)
  {
    assert [result][..1] == [result];
    SumExtends(EmptyResult, [result], 0);
    SumExtends(ResultFindings, [result], 0);
    SumExtends(ResultErrors, [result], 0);
  }

  lemma {:induction false} CountsIt(error: ProviderError, mind: Mind) returns (w: World)
    ensures Leads(Scanning(Recorded(error, mind), WritingAt(error, 2), mind), Advance, w)
    ensures w.db == Counted(error, mind)
  {
    CountsOne(Failed(error));
    CursorMoves(error, mind);
    w := AfterAdvance(Scanning(Recorded(error, mind), WritingAt(error, 2), mind));
    AdvanceLeads(Scanning(Recorded(error, mind), WritingAt(error, 2), mind));
  }

  lemma {:induction false} CursorMoves(error: ProviderError, mind: Mind)
    ensures AdvanceScan(Recorded(error, mind), 0, 1, 1, 0, 0, 1) == Counted(error, mind)
  {}

  lemma {:induction false} FirstEvents(setup: Pool.Setup) returns (events: seq<Event>)
    requires Usual(setup)
    ensures Possible(GENESIS, events)
    ensures End(GENESIS, events) == Scanning(OPENED, Fetching(0, 0, 1), MindOf(setup, map[]))
  {
    var mind := MindOf(setup, map[]);
    ImportsIt();
    Extends([], Import([ROW]), World(IMPORTED, Idle, BLANK, [], map[]));
    events := [] + [Import([ROW])];
    BeginsIt(setup);
    Extends(events, Begin(setup, 1, map[]), World(IMPORTED, Planning, mind, [], map[]));
    events := events + [Begin(setup, 1, map[])];
    PlansIt(mind);
    Extends(events, Plan, World(IMPORTED, Planned(1, 1), mind, [], map[]));
    events := events + [Plan];
    OpensIt(mind);
    Extends(events, Create, Scanning(OPENED, Fetching(0, 0, 1), mind));
    events := events + [Create];
  }

  lemma {:induction false} FailingScan(setup: Pool.Setup, error: ProviderError) returns (events: seq<Event>)
    requires Usual(setup) && Permanent(error)
    ensures Possible(GENESIS, events) && End(GENESIS, events).db == Counted(error, MindOf(setup, OneFailure()))
  {
    var untried, failed := MindOf(setup, map[]), MindOf(setup, OneFailure());
    events := FirstEvents(setup);
    FetchesIt(untried);
    Extends(events, Fetch(1), Scanning(OPENED, Probing(0, 0, 1, [ADDRESS]), untried));
    events := events + [Fetch(1)];
    ProbesIt(setup, error);
    Extends(events, Probe([Failed(error)], OneFailure()), Scanning(OPENED, WritingAt(error, 0), failed));
    events := events + [Probe([Failed(error)], OneFailure())];
    WritesIt(error, failed);
    Extends(events, Write(0), Scanning(Recorded(error, failed), WritingAt(error, 1), failed));
    events := events + [Write(0)];
    Extends(events, Write(0), Scanning(Recorded(error, failed), WritingAt(error, 2), failed));
    events := events + [Write(0)];
    var w := CountsIt(error, failed);
    Extends(events, Advance, w);
    events := events + [Advance];
  }

  // Such a history exists for every usual configuration, every permanent error of the first check and every positive
  // answer of the retry: the scan has counted the address, the entry is closed, and the finding is missing.
  lemma {:induction false} LossHappens(setup: Pool.Setup, error: ProviderError, answer: Reply)
    returns (events: seq<Event>, key: Key)
    requires Usual(setup) && Permanent(error) && IsPositive(answer)
    ensures Possible(GENESIS, events) && Forgotten(End(GENESIS, events).db, key, answer)
    ensures Missing(End(GENESIS, events).db, key, answer.chain, answer.atomic)
    ensures Behind(End(GENESIS, events).db.runs, key.id)
  {
    var before := FailingScan(setup, error);
    var counted := Counted(error, MindOf(setup, OneFailure()));
    key := KEY;
    assert key in Unresolved(counted);
    PositiveIsLostExactlyBetweenWrites(before, key, answer, 1, 0);
    ScriptExtends(before, key, answer, 1, 0);
    ScriptStart(counted, key, answer, 0);
    events := before + ToolEvents(Script(key, answer)[..1], 0);
    assert End(GENESIS, events).db.runs == counted.runs;
    assert counted.runs[0].start <= 1 <= counted.runs[0].cursor;
  }
}
