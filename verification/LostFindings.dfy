// A positive balance can be lost between the two writes that settle a retry: when, that it happens, and for how long.
module LostFindings {
  import opened Domain
  import opened Results
  import opened Tables
  import opened Protocol
  import opened ProtocolInvariant
  import opened ProtocolPast
  import opened ProtocolSafety
  import opened ProtocolMoves
  import opened Operators

  // What the retry tool does to a history.

  lemma {:induction false} Extends(events: seq<Event>, e: Event, next: World)
    requires Possible(GENESIS, events) && Leads(End(GENESIS, events), e, next)
    ensures Possible(GENESIS, events + [e]) && End(GENESIS, events + [e]) == next
  {
    OpenLeads(End(GENESIS, events), e, next);
    assert (events + [e])[..|events|] == events;
  }

  lemma {:induction false} ToolExtends(events: seq<Event>, task: Task, at: Time)
    requires Possible(GENESIS, events) && Permitted(End(GENESIS, events).db, task)
    ensures Possible(GENESIS, events + [Tool(task, at)])
    ensures End(GENESIS, events + [Tool(task, at)])
         == End(GENESIS, events).(db := Execute(End(GENESIS, events).db, task, at))
  {
    var w := End(GENESIS, events);
    ToolLeads(w, task, at);
    Extends(events, Tool(task, at), w.(db := Execute(w.db, task, at)));
  }

  lemma {:induction false} ScriptGrows(events: seq<Event>, script: seq<Task>, n: nat, at: Time)
    requires n < |script|
    ensures events + ToolEvents(script[..n + 1], at) == events + ToolEvents(script[..n], at) + [Tool(script[n], at)]
    ensures forall db :: Played(db, script[..n + 1], at) == Execute(Played(db, script[..n], at), script[n], at)
  {
    assert script[..n + 1][..n] == script[..n];
  }

  lemma {:induction false} EntryHasRow(events: seq<Event>, key: Key)
    requires Possible(GENESIS, events) && key in End(GENESIS, events).db.retries
    ensures key.id in End(GENESIS, events).db.rows
  {
    EveryRunKeepsInv(events);
    OpenPast(End(GENESIS, events).db, End(GENESIS, events).ledgers, End(GENESIS, events).deleted);
  }

  lemma {:induction false} ScriptExtends(events: seq<Event>, key: Key, answer: Reply, writes: nat, at: Time)
    requires Possible(GENESIS, events) && key in Unresolved(End(GENESIS, events).db)
    requires IsPositive(answer) && writes <= 2
    ensures var longer := events + ToolEvents(Script(key, answer)[..writes], at);
            && Possible(GENESIS, longer)
            && End(GENESIS, longer).db == Played(End(GENESIS, events).db, Script(key, answer)[..writes], at)
  {
    var script := Script(key, answer);
    if writes == 0 {
      assert events + ToolEvents(script[..0], at) == events;
    } else {
      var before := events + ToolEvents(script[..writes - 1], at);
      ScriptExtends(events, key, answer, writes - 1, at);
      PlayedKeepsRetries(End(GENESIS, events).db, key, answer, writes - 1, at);
      EntryHasRow(before, key);
      ToolExtends(before, script[writes - 1], at);
      ScriptGrows(events, script, writes - 1, at);
    }
  }

  lemma {:induction false} PlayedKeepsRetries(db: Db, key: Key, answer: Reply, writes: nat, at: Time)
    requires key in db.retries && IsPositive(answer) && writes <= 2
    ensures key in Played(db, Script(key, answer)[..writes], at).retries
  {
    ScriptStart(db, key, answer, at);
    ScriptEnd(db, key, answer, at);
  }

  // From any reachable state with an unresolved entry, any prefix of the tool's writes is possible, and the positive
  // answer is forgotten exactly if the process stops after the first of the two and the table did not already hold
  // that very amount.
  lemma {:induction false} PositiveIsLostExactlyBetweenWrites(events: seq<Event>, key: Key, answer: Reply, writes: nat,
                                                              at: Time)
    requires Possible(GENESIS, events) && key in Unresolved(End(GENESIS, events).db)
    requires IsPositive(answer) && writes <= 2
    ensures var longer := events + ToolEvents(Script(key, answer)[..writes], at);
            && Possible(GENESIS, longer)
            && (Forgotten(End(GENESIS, longer).db, key, answer) <==>
                  writes == 1 && !Held(End(GENESIS, events).db, FindingKey(key, answer), answer.atomic))
  {
    ScriptExtends(events, key, answer, writes, at);
    ForgottenIff(End(GENESIS, events).db, key, answer, writes, at);
  }

  // For how long: until someone records an error for the entry again, or saves that very amount.

  // The scan has passed the address.
  ghost predicate Behind(runs: seq<Run>, id: int) {
    exists i :: 0 <= i < |runs| && runs[i].start <= id <= runs[i].cursor
  }

  predicate Touches(task: Task, key: Key, chain: Chain, amount: int) {
    match task
    case Record(id, failure) => Key(id, failure.chain) == key
    case Save(findings) => exists f :: f in findings && Finds(f, Key(key.id, chain), amount)
    case _ => false
  }

  predicate Finds(f: Finding, place: Key, amount: int) { Key(f.id, f.chain) == place && f.atomic == amount }

  predicate Revives(e: Event, key: Key, chain: Chain, amount: int) { e.Tool? && Touches(e.task, key, chain, amount) }

  // The entry is closed and the amount is not there.
  predicate Missing(db: Db, key: Key, chain: Chain, amount: int) {
    key in db.retries && db.retries[key].resolved && !Held(db, Key(key.id, chain), amount)
  }

  lemma {:induction false} OtherSavesKeepMissing(saving: Saving, findings: seq<Finding>, place: Key, amount: int)
    requires forall f :: f in findings ==> !Finds(f, place, amount)
    requires place in saving.findings ==> saving.findings[place].atomic != amount
    ensures var after := UpsertAll(saving, findings).findings; place in after ==> after[place].atomic != amount
  {
    if findings != [] {
      var n := |findings| - 1;
      assert forall f :: f in findings[..n] ==> f in findings;
      OtherSavesKeepMissing(saving, findings[..n], place, amount);
      assert findings[n] in findings;
    }
  }

  lemma {:induction false} OtherTasksKeepMissing(db: Db, task: Task, at: Time, key: Key, chain: Chain, amount: int)
    requires Missing(db, key, chain, amount) && !Touches(task, key, chain, amount)
    ensures Missing(Execute(db, task, at), key, chain, amount)
  {
    if task.Save? {
      OtherSavesKeepMissing(Saving(db.findings, None, false), task.findings, Key(key.id, chain), amount);
    }
  }

  lemma {:induction false} ImportKeepsMissing(db: Db, rows: seq<Row>)
    ensures InsertAll(db, rows).0.retries == db.retries && InsertAll(db, rows).0.findings == db.findings
  {
    if rows != [] { ImportKeepsMissing(db, rows[..|rows| - 1]); }
  }

  lemma {:induction false} PassedLiesBelow(db: Db, run: nat, cursor: int, end: int, id: int)
    requires RunsOk(db) && ActiveRun(db, run, cursor, end, Running) && Behind(db.runs, id)
    ensures id <= cursor
  {
    var i :| 0 <= i < |db.runs| && db.runs[i].start <= id <= db.runs[i].cursor;
    assert RunOk(db, db.runs[i]) && RunOk(db, db.runs[run]);
  }

  lemma {:induction false} BatchIsAhead(w: World, id: int, k: nat)
    requires Inv(w) && Behind(w.db.runs, id) && w.proc.Writing? && k < |w.proc.results|
    ensures id < w.proc.results[k].address.id
  {
    ResultsAreFromBatch(w.proc.batch, w.proc.results);
    BatchBounds(w.db, w.proc.cursor, w.proc.end, w.proc.batch, w.proc.results[k].address);
    assert RunsOk(w.db) by { OpenPast(w.db, w.ledgers, w.deleted); }
    PassedLiesBelow(w.db, w.proc.run, w.proc.cursor, w.proc.end, id);
  }

  // A scan that has passed the address never writes for it again.
  lemma {:induction false} ScanLeavesItAlone(w: World, key: Key, chain: Chain, amount: int)
    requires Inv(w) && Behind(w.db.runs, key.id) && w.proc.Writing? && w.proc.next < |w.proc.tasks|
    ensures !Touches(w.proc.tasks[w.proc.next], key, chain, amount)
  {
    var k := TaskComesFrom(w.proc.results, w.proc.next);
    var result := w.proc.results[k];
    BatchIsAhead(w, key.id, k);
    assert FullyAnswered(result);
    forall f | f in result.findings ensures f.id != key.id {
      FindingsArePositive(result.address.id, result.answers, f);
    }
  }

  lemma {:induction false} OtherEventsKeepMissing(w: World, e: Event)
    requires Enabled(w, e) && !e.Tool? && !e.Write?
    ensures Apply(w, e).db.retries == w.db.retries && Apply(w, e).db.findings == w.db.findings
  {
    if e.Import? { ImportKeepsMissing(w.db, e.rows); }
  }

  lemma {:induction false} BehindStays(w: World, e: Event, id: int)
    requires Inv(w) && Enabled(w, e) && Behind(w.db.runs, id)
    ensures Behind(Apply(w, e).db.runs, id)
  {
    var i :| 0 <= i < |w.db.runs| && w.db.runs[i].start <= id <= w.db.runs[i].cursor;
    CursorNeverMovesBack(w, e, i);
    assert Apply(w, e).db.runs[i].start <= id <= Apply(w, e).db.runs[i].cursor;
  }

  lemma {:induction false} MissingStays(w: World, e: Event, key: Key, chain: Chain, amount: int)
    requires Inv(w) && Enabled(w, e) && !Revives(e, key, chain, amount)
    requires Missing(w.db, key, chain, amount) && Behind(w.db.runs, key.id)
    ensures Missing(Apply(w, e).db, key, chain, amount)
  {
    if e.Tool? {
      OtherTasksKeepMissing(w.db, e.task, e.at, key, chain, amount);
    } else if e.Write? {
      ScanLeavesItAlone(w, key, chain, amount);
      OtherTasksKeepMissing(w.db, w.proc.tasks[w.proc.next], RetryTime(w.mind, e.now), key, chain, amount);
    } else {
      OtherEventsKeepMissing(w, e);
    }
  }

  lemma {:induction false} EntryStaysMissing(before: seq<Event>, more: seq<Event>, key: Key, chain: Chain,
                                           amount: int)
    requires Possible(GENESIS, before) && Possible(GENESIS, before + more)
    requires Missing(End(GENESIS, before).db, key, chain, amount) && Behind(End(GENESIS, before).db.runs, key.id)
    requires forall k :: 0 <= k < |more| ==> !Revives(more[k], key, chain, amount)
    ensures Missing(End(GENESIS, before + more).db, key, chain, amount)
    ensures Behind(End(GENESIS, before + more).db.runs, key.id)
  {
    if more == [] {
      assert before + more == before;
    } else {
      var n := |more| - 1;
      var shorter := before + more[..n];
      assert (before + more)[..|before + more| - 1] == shorter && (before + more)[|before + more| - 1] == more[n];
      EntryStaysMissing(before, more[..n], key, chain, amount);
      EveryRunKeepsInv(shorter);
      BehindStays(End(GENESIS, shorter), more[n], key.id);
      MissingStays(End(GENESIS, shorter), more[n], key, chain, amount);
    }
  }

  // Whatever happens later, the amount stays missing, no pass of the retry tool selects the entry,
  // and the address keeps its row.
  lemma {:induction false} LossIsPermanent(before: seq<Event>, more: seq<Event>, key: Key, chain: Chain,
                                         amount: int, now: Time)
    requires Possible(GENESIS, before) && Possible(GENESIS, before + more)
    requires Missing(End(GENESIS, before).db, key, chain, amount) && Behind(End(GENESIS, before).db.runs, key.id)
    requires forall k :: 0 <= k < |more| ==> !Revives(more[k], key, chain, amount)
    ensures var db := End(GENESIS, before + more).db;
            && Missing(db, key, chain, amount) && key !in Ready(db, now)
            && key.id in db.rows && !Eligible(db, now, key.id)
  {
    EntryStaysMissing(before, more, key, chain, amount);
    EntryHasRow(before + more, key);
  }
}
