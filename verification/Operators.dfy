// The operator loops: retrying failed checks and cleaning up, each running alone on the store.
module Operators {
  import opened Domain
  import opened Results
  import opened Tables
  import opened Protocol
  import opened ProtocolInvariant
  import opened ProtocolPast
  import opened Store
  import Attempts
  import H = Health

  function Unresolved(db: Db): set<Key> {
    set key | key in db.retries && !db.retries[key].resolved
  }

  // Unresolved, due, and joined with its address.
  predicate IsReady(db: Db, now: Time, key: Key) {
    key in db.retries && !db.retries[key].resolved && db.retries[key].nextAt <= now && key.id in db.rows
  }

  function Ready(db: Db, now: Time): set<Key> {
    set key | key in db.retries && IsReady(db, now, key)
  }

  function Serial(db: Db, key: Key): nat {
    if key in db.retries then db.retries[key].serial else 0
  }

  lemma {:induction false} LeastSerial(db: Db, keys: set<Key>) returns (least: Key)
    requires keys != {}
    ensures least in keys && forall key :: key in keys ==> Serial(db, least) <= Serial(db, key)
    decreases |keys|
  {
    var key :| key in keys;
    if keys == {key} {
      least := key;
    } else {
      assert keys == (keys - {key}) + {key};
      least := LeastSerial(db, keys - {key});
      if Serial(db, key) < Serial(db, least) { least := key; }
    }
  }

  // The ready entries with the lowest serial numbers, in that order, at most limit of them; folded.
  ghost predicate IsPage(db: Db, now: Time, limit: nat, items: seq<Key>) {
    forall depth {:trigger Looking(depth)} :: Looking(depth) && depth == 8 ==> PageOk(db, now, limit, items)
  }

  // An open entry of a stored address whose time has come.
  ghost predicate Waits(db: Db, now: Time, key: Key) {
    key in db.retries && key.id in db.rows && !db.retries[key].resolved && db.retries[key].nextAt <= now
  }

  ghost predicate PageOk(db: Db, now: Time, limit: nat, items: seq<Key>) {
    && |items| <= limit
    && (forall i :: 0 <= i < |items| ==> Waits(db, now, items[i]))
    && (forall i, j :: 0 <= i < j < |items| ==>
          items[i] != items[j] && db.retries[items[i]].serial <= db.retries[items[j]].serial)
    && (forall key, i :: Waits(db, now, key) && key !in items && 0 <= i < |items| ==>
          db.retries[items[i]].serial <= db.retries[key].serial)
    && (|items| < limit ==> forall key :: Waits(db, now, key) ==> key in items)
  }

  // The one with the least serial number.
  method Earliest(db: Db, left: set<Key>) returns (next: Key)
    requires left != {}
    ensures next in left && forall key :: key in left ==> Serial(db, next) <= Serial(db, key)
  {
    ghost var least := LeastSerial(db, left);
    next :| next in left && forall key :: key in left ==> Serial(db, next) <= Serial(db, key);
  }

  method NextRetries(db: Db, now: Time, limit: nat) returns (items: seq<Key>)
    ensures IsPage(db, now, limit, items)
  {
    items := [];
    var left := Ready(db, now);
    while |items| < limit && left != {}
      invariant |items| <= limit
      invariant left <= Ready(db, now)
      invariant forall key :: key in Ready(db, now) <==> key in items || key in left
      invariant forall i :: 0 <= i < |items| ==> items[i] !in left
      invariant forall i, j :: 0 <= i < j < |items| ==>
                  items[i] != items[j] && Serial(db, items[i]) <= Serial(db, items[j])
      invariant forall i, key :: 0 <= i < |items| && key in left ==>
                  Serial(db, items[i]) <= Serial(db, key)
      decreases |left|
    {
      var next := Earliest(db, left);
      items := items + [next];
      left := left - {next};
    }
  }

  predicate IsPositive(answer: Reply) { answer.Balance? && answer.atomic > 0 }

  // Where a positive answer is stored.
  function FindingKey(key: Key, answer: Reply): Key
    requires answer.Balance?
  {
    Key(key.id, answer.chain)
  }

  // The table holds this amount under the key.
  predicate Held(db: Db, key: Key, amount: int) { key in db.findings && db.findings[key].atomic == amount }

  // Every balance was reported for the chain it was asked for, so no two entries share a finding.
  ghost predicate OwnChains(answers: map<Key, Reply>) {
    forall key :: key in answers && answers[key].Balance? ==> answers[key].chain == key.chain
  }

  // What one pass did to one entry, judged by the provider's answer. A positive amount is held to the end of the pass,
  // unless another entry's answer was for the same chain.
  ghost predicate Handled(before: Db, after: Db, key: Key, answer: Reply, own: bool, at: Time) {
    && key in before.retries && key in after.retries
    && (if answer.Balance?
        then after.retries[key] == before.retries[key].(resolved := true)
             && (answer.atomic > 0 ==> FindingKey(key, answer) in after.findings)
             && (answer.atomic > 0 && own ==> Held(after, FindingKey(key, answer), answer.atomic))
        else PutOff(before.retries[key], after.retries[key], AsProviderError(answer, key.chain, false), at))
  }

  // An entry put off until a time: one more attempt with this error.
  predicate PutOff(entry: Retry, later: Retry, error: ProviderError, at: Time) {
    && !later.resolved && later.nextAt == at && later.attempts == entry.attempts + 1 && later.serial == entry.serial
    && later.code == error.code && later.provider == error.provider && later.message == error.message
  }

  // Which entries a pass rechecks, and until when it puts off those that fail.
  datatype Terms = Terms(providers: set<Chain>, at: Time)

  // The finding is what the entry's answer reported.
  predicate Reports(answers: map<Key, Reply>, key: Key, place: Key, found: Stored) {
    && key in answers && IsPositive(answers[key]) && FindingKey(key, answers[key]) == place
    && found == Stored(answers[key].atomic, answers[key].symbol)
  }

  // No finding is dropped, and each that is new or different is what some answer reported.
  ghost predicate FindingsFrom(before: Db, after: Db, answers: map<Key, Reply>) {
    && before.findings.Keys <= after.findings.Keys
    && (forall place :: place in after.findings ==>
          || (place in before.findings && after.findings[place] == before.findings[place])
          || exists key :: Reports(answers, key, place, after.findings[place]))
  }

  // A pass leaves entries it was not given alone and reopens nothing.
  ghost predicate PassFrame(before: Db, after: Db, touched: set<Key>) {
    && after.rows == before.rows && after.runs == before.runs
    && before.retries.Keys == after.retries.Keys
    && (forall key :: key in before.retries && key !in touched ==> after.retries[key] == before.retries[key])
    && Unresolved(after) <= Unresolved(before)
  }

  // Each item with a provider was handled; the others were passed over.
  ghost predicate AllHandled(before: Db, after: Db, terms: Terms, items: set<Key>, answers: map<Key, Reply>) {
    forall key :: key in items ==>
      if key.chain in terms.providers
      then key in answers && Handled(before, after, key, answers[key], OwnChains(answers), terms.at)
      else key in before.retries && key in after.retries && after.retries[key] == before.retries[key]
  }

  // An entry is closed on the strength of a balance only.
  ghost predicate ClosedOnBalance(before: Db, after: Db, answers: map<Key, Reply>) {
    forall key :: key in Unresolved(before) && key !in Unresolved(after) ==> key in answers && answers[key].Balance?
  }

  // Every entry closed on a positive answer has its finding, with its amount, but for those in a set.
  ghost predicate PositivesStored(before: Db, after: Db, answers: map<Key, Reply>, missing: set<Key>) {
    forall key :: (key in Unresolved(before) - Unresolved(after) - missing
                   && key in answers && IsPositive(answers[key])) ==>
      && FindingKey(key, answers[key]) in after.findings
      && (OwnChains(answers) ==> Held(after, FindingKey(key, answers[key]), answers[key].atomic))
  }

  lemma {:induction false} FramesCompose(a: Db, b: Db, c: Db, s: set<Key>, t: set<Key>)
    requires PassFrame(a, b, s) && PassFrame(b, c, t)
    ensures PassFrame(a, c, s + t)
  {}

  lemma {:induction false} FindingsCompose(a: Db, b: Db, c: Db, answers: map<Key, Reply>, more: map<Key, Reply>,
                                           all: map<Key, Reply>)
    requires FindingsFrom(a, b, answers) && FindingsFrom(b, c, more)
    requires forall key :: key in answers && IsPositive(answers[key]) ==> key in all && all[key] == answers[key]
    requires forall key :: key in more ==> key in all && all[key] == more[key]
    ensures FindingsFrom(a, c, all)
  {
    forall place | place in c.findings && !(place in a.findings && c.findings[place] == a.findings[place])
      ensures exists key :: Reports(all, key, place, c.findings[place])
    {
      if place in b.findings && c.findings[place] == b.findings[place] {
        var key :| Reports(answers, key, place, b.findings[place]);
        assert Reports(all, key, place, c.findings[place]);
      } else {
        var key :| Reports(more, key, place, c.findings[place]);
        assert Reports(all, key, place, c.findings[place]);
      }
    }
  }

  // With each answer for its own chain, the finding of an entry changes only when that entry is settled.
  lemma {:induction false} OwnFindingStays(before: Db, after: Db, answers: map<Key, Reply>, key: Key, amount: int)
    requires FindingsFrom(before, after, answers) && OwnChains(answers) && key !in answers
    ensures Held(after, key, amount) <==> Held(before, key, amount)
  {
    if key in after.findings {
      forall k ensures !Reports(answers, k, key, after.findings[key]) {}
    }
  }

  lemma {:induction false} HandledStays(a: Db, b: Db, c: Db, key: Key, known: Reply, other: Key, answer: Reply,
                                        own: bool, stillOwn: bool, at: Time)
    requires Handled(a, b, key, known, own, at) && FindingsFrom(b, c, map[other := answer]) && key != other
    requires key in c.retries && c.retries[key] == b.retries[key]
    requires stillOwn ==> own && OwnChains(map[other := answer]) && OwnChains(map[key := known])
    ensures Handled(a, c, key, known, stillOwn, at)
  {
    if stillOwn && IsPositive(known) {
      OwnFindingStays(b, c, map[other := answer], key, known.atomic);
    }
  }

  lemma {:induction false} HandlingStays(a: Db, b: Db, c: Db, terms: Terms, items: set<Key>,
                                         answers: map<Key, Reply>, key: Key, answer: Reply)
    requires PassFrame(a, b, items) && PassFrame(b, c, {key}) && key !in items && key !in answers
    requires AllHandled(a, b, terms, items, answers) && FindingsFrom(b, c, map[key := answer])
    ensures AllHandled(a, c, terms, items, answers[key := answer])
  {
    var all := answers[key := answer];
    OwnershipGrows(answers, key, answer);
    forall k | k in items && k.chain in terms.providers ensures Handled(a, c, k, all[k], OwnChains(all), terms.at) {
      assert OwnChains(all) ==> OwnChains(map[k := answers[k]]);
      HandledStays(a, b, c, k, answers[k], key, answer, OwnChains(answers), OwnChains(all), terms.at);
    }
  }

  lemma {:induction false} OwnershipGrows(answers: map<Key, Reply>, key: Key, answer: Reply)
    requires key !in answers
    ensures OwnChains(answers[key := answer]) <==> OwnChains(answers) && OwnChains(map[key := answer])
  {
    if OwnChains(answers[key := answer]) {
      forall k | k in answers && answers[k].Balance? ensures answers[k].chain == k.chain {
        assert answers[key := answer][k] == answers[k];
      }
      assert answers[key := answer][key] == answer;
    }
  }

  lemma {:induction false} HandlingComposes(a: Db, b: Db, c: Db, terms: Terms, items: set<Key>,
                                            answers: map<Key, Reply>, key: Key, answer: Reply)
    requires PassFrame(a, b, items) && PassFrame(b, c, {key}) && key !in items && key !in answers
    requires AllHandled(a, b, terms, items, answers) && FindingsFrom(b, c, map[key := answer])
    requires key.chain in terms.providers && Handled(b, c, key, answer, true, terms.at)
    ensures AllHandled(a, c, terms, items + {key}, answers[key := answer])
  {
    HandlingStays(a, b, c, terms, items, answers, key, answer);
  }

  lemma {:induction false} ClosingComposes(a: Db, b: Db, c: Db, answers: map<Key, Reply>, items: set<Key>, key: Key,
                                           answer: Reply)
    requires PassFrame(a, b, items) && PassFrame(b, c, {key}) && key !in items
    requires ClosedOnBalance(a, b, answers) && (key !in Unresolved(c) ==> answer.Balance?)
    requires key in Unresolved(b)
    ensures ClosedOnBalance(a, c, answers[key := answer])
  {
    forall k | k in Unresolved(a) && k !in Unresolved(c)
      ensures k in answers[key := answer] && answers[key := answer][k].Balance?
    {
      if k != key {
        assert k in b.retries && c.retries[k] == b.retries[k];
      }
    }
  }

  // What is handled is stored.
  lemma {:induction false} HandledIsStored(a: Db, b: Db, terms: Terms, items: set<Key>, missing: set<Key>,
                                           answers: map<Key, Reply>)
    requires PassFrame(a, b, items + missing) && AllHandled(a, b, terms, items, answers)
    ensures PositivesStored(a, b, answers, missing)
  {
    forall key | key in Unresolved(a) && key !in Unresolved(b) && key !in missing
        && key in answers && IsPositive(answers[key])
      ensures FindingKey(key, answers[key]) in b.findings
      ensures OwnChains(answers) ==> Held(b, FindingKey(key, answers[key]), answers[key].atomic)
    {
      assert key in items;
    }
  }

  // The writes after one answer, in order: an error is recorded again; a balance first closes the entry
  // and then, if it is positive, is saved.
  function Script(key: Key, answer: Reply): seq<Task> {
    if !answer.Balance? then [Record(key.id, FailureFrom(key.chain, answer))]
    else if answer.atomic <= 0 then [Close(key)]
    else [Close(key), Save([Finding(key.id, answer.chain, answer.atomic, answer.symbol)])]
  }

  ghost function ToolEvents(tasks: seq<Task>, at: Time): seq<Event> {
    seq(|tasks|, i requires 0 <= i < |tasks| => Tool(tasks[i], at))
  }

  // A prefix of the writes has been made, and nothing else; folded.
  ghost predicate Settled(before: Db, after: Db, key: Key, answer: Reply, writes: nat, at: Time) {
    forall depth {:trigger Looking(depth)} :: Looking(depth) && depth == 0 ==>
      writes <= |Script(key, answer)| && after == Played(before, Script(key, answer)[..writes], at)
  }

  // The entry is closed, and the table does not hold the amount it was closed on: there is no finding, or one with
  // an older amount.
  predicate Forgotten(db: Db, key: Key, answer: Reply)
    requires answer.Balance?
  {
    key in db.retries && db.retries[key].resolved && !Held(db, FindingKey(key, answer), answer.atomic)
  }

  lemma {:induction false} ScriptStart(db: Db, key: Key, answer: Reply, at: Time)
    ensures Played(db, Script(key, answer)[..0], at) == db
    ensures Played(db, Script(key, answer)[..1], at) == Execute(db, Script(key, answer)[0], at)
  {
    assert Script(key, answer)[..1][..0] == [];
  }

  lemma {:induction false} ScriptEnd(db: Db, key: Key, answer: Reply, at: Time)
    requires IsPositive(answer)
    ensures var saved := [Finding(key.id, answer.chain, answer.atomic, answer.symbol)];
            Played(db, Script(key, answer)[..2], at) == SaveFindings(CloseRetry(db, key), saved)
  {
    ScriptStart(db, key, answer, at);
    assert Script(key, answer)[..2][..1] == Script(key, answer)[..1];
  }

  // How far the writes got decides what became of a positive answer, unless its very amount was already held.
  lemma {:induction false} ForgottenIff(db: Db, key: Key, answer: Reply, writes: nat, at: Time)
    requires key in Unresolved(db) && IsPositive(answer) && writes <= 2
    ensures var after := Played(db, Script(key, answer)[..writes], at);
            Forgotten(after, key, answer) <==> writes == 1 && !Held(db, FindingKey(key, answer), answer.atomic)
  {
    ScriptStart(db, key, answer, at);
    ScriptEnd(db, key, answer, at);
    SavingOne(db, Finding(key.id, answer.chain, answer.atomic, answer.symbol));
  }

  lemma {:induction false} SavingOne(db: Db, finding: Finding)
    ensures SaveFindings(db, [finding]).findings
         == db.findings[Key(finding.id, finding.chain) := Stored(finding.atomic, finding.symbol)]
  {
    var saving := Saving(db.findings, None, false);
    assert [finding][..|[finding]| - 1] == [];
    assert UpsertAll(saving, [finding]) == Upsert(saving, finding);
  }

  // What the writes leave alone, however far they got.
  lemma {:induction false} ScriptKeepsFrame(db: Db, key: Key, answer: Reply, writes: nat, at: Time)
    requires key in Unresolved(db) && writes <= |Script(key, answer)|
    ensures PassFrame(db, Played(db, Script(key, answer)[..writes], at), {key})
    ensures key !in Unresolved(Played(db, Script(key, answer)[..writes], at)) ==> answer.Balance?
    ensures writes == |Script(key, answer)| ==> Handled(db, Played(db, Script(key, answer), at), key, answer, true, at)
  {
    ScriptStart(db, key, answer, at);
    assert Script(key, answer)[..|Script(key, answer)|] == Script(key, answer);
    if IsPositive(answer) {
      ScriptEnd(db, key, answer, at);
      SavingOne(db, Finding(key.id, answer.chain, answer.atomic, answer.symbol));
    }
  }

  lemma {:induction false} ScriptFinds(db: Db, key: Key, answer: Reply, writes: nat, at: Time)
    requires key in Unresolved(db) && writes <= |Script(key, answer)|
    ensures FindingsFrom(db, Played(db, Script(key, answer)[..writes], at), map[key := answer])
  {
    ScriptStart(db, key, answer, at);
    if IsPositive(answer) {
      ScriptEnd(db, key, answer, at);
      SavingOne(db, Finding(key.id, answer.chain, answer.atomic, answer.symbol));
      assert Reports(map[key := answer], key, FindingKey(key, answer), Stored(answer.atomic, answer.symbol));
    }
  }

  // A positive answer is forgotten exactly if the process stopped between the two writes that settle it, and the
  // table did not already hold its amount.
  ghost predicate LossExplained(before: Db, after: Db, key: Key, answer: Reply, writes: nat) {
    IsPositive(answer) ==>
      (Forgotten(after, key, answer) <==> writes == 1 && !Held(before, FindingKey(key, answer), answer.atomic))
  }

  lemma {:induction false} WritesDecide(db: Db, key: Key, answer: Reply, writes: nat, at: Time)
    requires key in Unresolved(db) && writes <= |Script(key, answer)|
    ensures LossExplained(db, Played(db, Script(key, answer)[..writes], at), key, answer, writes)
  {
    if IsPositive(answer) { ForgottenIff(db, key, answer, writes, at); }
  }

  // A pass that has touched some entries, asked about those with a provider and handled some of them; folded.
  ghost predicate PassOk(before: Db, now: Db, terms: Terms, touched: set<Key>, handled: set<Key>,
                         answers: map<Key, Reply>) {
    forall depth {:trigger Looking(depth)} :: Looking(depth) && depth == 1 ==>
      && PassFrame(before, now, touched) && ClosedOnBalance(before, now, answers)
      && AllHandled(before, now, terms, handled, answers) && FindingsFrom(before, now, answers)
      && (forall key :: key in answers ==> key in touched && key.chain in terms.providers)
  }

  lemma {:induction false} OpenPass(before: Db, now: Db, terms: Terms, touched: set<Key>, handled: set<Key>,
                                    answers: map<Key, Reply>)
    requires PassOk(before, now, terms, touched, handled, answers)
    ensures PassFrame(before, now, touched) && ClosedOnBalance(before, now, answers)
    ensures AllHandled(before, now, terms, handled, answers) && FindingsFrom(before, now, answers)
    ensures forall key :: key in answers ==> key in touched && key.chain in terms.providers
  {
    assert Looking(1);
  }

  lemma {:induction false} PassClosesOnly(before: Db, now: Db, terms: Terms, touched: set<Key>, handled: set<Key>,
                                          answers: map<Key, Reply>)
    requires PassOk(before, now, terms, touched, handled, answers)
    ensures Unresolved(now) <= Unresolved(before)
  {
    OpenPass(before, now, terms, touched, handled, answers);
  }

  lemma {:induction false} PassStarts(db: Db, terms: Terms)
    ensures PassOk(db, db, terms, {}, {}, map[])
  {}

  lemma {:induction false} PassSkips(before: Db, now: Db, terms: Terms, done: set<Key>,
                                     answers: map<Key, Reply>, key: Key)
    requires PassOk(before, now, terms, done, done, answers) && key !in done
    requires key in before.retries && key.chain !in terms.providers
    ensures PassOk(before, now, terms, done + {key}, done + {key}, answers)
  {
    OpenPass(before, now, terms, done, done, answers);
  }

  // The state that a prefix of the writes leaves, seen from the state they began in.
  lemma {:induction false} PrefixKeepsFrame(mid: Db, after: Db, key: Key, answer: Reply, writes: nat, at: Time)
    requires Settled(mid, after, key, answer, writes, at) && key in Unresolved(mid)
    ensures PassFrame(mid, after, {key}) && FindingsFrom(mid, after, map[key := answer])
    ensures (key !in Unresolved(after) ==> answer.Balance?) && LossExplained(mid, after, key, answer, writes)
    ensures writes == |Script(key, answer)| ==> Handled(mid, after, key, answer, true, at)
  {
    assert Looking(0);
    ScriptKeepsFrame(mid, key, answer, writes, at);
    ScriptFinds(mid, key, answer, writes, at);
    WritesDecide(mid, key, answer, writes, at);
    if writes == |Script(key, answer)| {
      assert Script(key, answer)[..writes] == Script(key, answer);
    }
  }

  lemma {:induction false} PassGoesOn(before: Db, mid: Db, after: Db, terms: Terms, done: set<Key>,
                                      known: map<Key, Reply>, key: Key, answer: Reply, writes: nat)
    requires PassOk(before, mid, terms, done, done, known) && key !in done && key in Unresolved(before)
    requires key.chain in terms.providers && Settled(mid, after, key, answer, writes, terms.at)
    ensures key in Unresolved(mid)
    ensures OwnChains(known[key := answer]) ==> LossExplained(before, after, key, answer, writes)
    ensures PassOk(before, after, terms, done + {key}, done, known[key := answer])
    ensures writes == |Script(key, answer)| ==>
              PassOk(before, after, terms, done + {key}, done + {key}, known[key := answer])
  {
    OpenPass(before, mid, terms, done, done, known);
    assert mid.retries[key] == before.retries[key];
    PrefixKeepsFrame(mid, after, key, answer, writes, terms.at);
    FrameGoesOn(before, mid, after, terms, done, known, key, answer);
    if writes == |Script(key, answer)| {
      HandlingComposes(before, mid, after, terms, done, known, key, answer);
    }
    LossIsSeenFromStart(before, mid, after, known, key, answer, writes);
  }

  lemma {:induction false} FrameGoesOn(before: Db, mid: Db, after: Db, terms: Terms, done: set<Key>,
                                       known: map<Key, Reply>, key: Key, answer: Reply)
    requires PassFrame(before, mid, done) && PassFrame(mid, after, {key}) && key !in done && key !in known
    requires ClosedOnBalance(before, mid, known) && (key !in Unresolved(after) ==> answer.Balance?)
    requires FindingsFrom(before, mid, known) && FindingsFrom(mid, after, map[key := answer]) && key in Unresolved(mid)
    requires AllHandled(before, mid, terms, done, known)
    ensures PassFrame(before, after, done + {key}) && ClosedOnBalance(before, after, known[key := answer])
    ensures FindingsFrom(before, after, known[key := answer])
    ensures AllHandled(before, after, terms, done, known[key := answer])
  {
    FramesCompose(before, mid, after, done, {key});
    ClosingComposes(before, mid, after, known, done, key, answer);
    FindingsCompose(before, mid, after, known, map[key := answer], known[key := answer]);
    HandlingStays(before, mid, after, terms, done, known, key, answer);
  }

  lemma {:induction false} LossIsSeenFromStart(before: Db, mid: Db, after: Db, known: map<Key, Reply>, key: Key,
                                               answer: Reply, writes: nat)
    requires FindingsFrom(before, mid, known) && key !in known && LossExplained(mid, after, key, answer, writes)
    ensures OwnChains(known[key := answer]) ==> LossExplained(before, after, key, answer, writes)
  {
    OwnershipGrows(known, key, answer);
    if OwnChains(known[key := answer]) && IsPositive(answer) {
      assert map[key := answer][key] == answer;
      assert FindingKey(key, answer) == key;
      OwnFindingStays(before, mid, known, key, answer.atomic);
    }
  }

  function Firsts(page: seq<Key>, n: nat): set<Key>
    requires n <= |page|
  {
    set i | 0 <= i < n :: page[i]
  }

  // Distinct unresolved entries.
  ghost predicate IsList(db: Db, page: seq<Key>) {
    && (forall i :: 0 <= i < |page| ==> page[i] in Unresolved(db))
    && (forall i, j :: 0 <= i < j < |page| ==> page[i] != page[j])
  }

  lemma {:induction false} PageIsList(db: Db, now: Time, limit: nat, page: seq<Key>)
    requires IsPage(db, now, limit, page)
    ensures IsList(db, page)
  {
    assert Looking(8);
  }

  lemma {:induction false} FirstsGrow(page: seq<Key>, n: nat)
    requires n < |page| && forall i, j :: 0 <= i < j < |page| ==> page[i] != page[j]
    ensures Firsts(page, n + 1) == Firsts(page, n) + {page[n]} && page[n] !in Firsts(page, n)
  {}

  // What a pass is told to do.
  datatype Job = Job(providers: set<Chain>, policy: Attempts.Policy, batchSize: nat)

  // What a pass meets: the time, each provider's replies for an entry, and whether the process may be told to stop.
  datatype Session = Session(now: Time, replies: Key -> nat -> Reply, cancellable: bool)

  // The answer is what the attempts for the entry come to, or the check was cancelled.
  ghost predicate Answers(key: Key, answer: Reply, policy: Attempts.Policy, session: Session) {
    || answer == Attempts.FinalAnswer(key.chain, policy, session.replies(key), 0)
    || (session.cancellable && answer.Unclassified?)
  }

  // So are all of them; folded.
  ghost predicate AllAnswer(answers: map<Key, Reply>, policy: Attempts.Policy, session: Session) {
    forall depth {:trigger Looking(depth)} :: Looking(depth) && depth == 7 ==>
      forall key :: key in answers ==> Answers(key, answers[key], policy, session)
  }

  lemma {:induction false} AnswersGrow(answers: map<Key, Reply>, policy: Attempts.Policy, session: Session, key: Key,
                                       answer: Reply)
    requires AllAnswer(answers, policy, session) && Answers(key, answer, policy, session)
    ensures AllAnswer(answers[key := answer], policy, session)
  {
    assert Looking(7);
  }

  class RetryTool {
    const store: Store
    const providers: set<Chain>
    const policy: Attempts.Policy
    const health: H.HealthTracker

    constructor (store: Store, providers: set<Chain>, policy: Attempts.Policy, health: H.HealthTracker)
      ensures this.store == store && this.providers == providers && this.policy == policy && this.health == health
    {
      this.store, this.providers, this.policy, this.health := store, providers, policy, health;
    }

    ghost function JobOf(batchSize: nat): Job { Job(providers, policy, batchSize) }

    ghost function TermsOf(session: Session): Terms { Terms(providers, session.now + policy.baseDelay) }

    // The writes after one answer. If the process stops, a prefix of them has been made.
    method Settle(key: Key, answer: Reply, at: Time) returns (ok: bool, ghost writes: nat)
      requires store.Valid() && key in Unresolved(store.State())
      modifies store
      ensures store.Valid() && writes <= |Script(key, answer)| && (ok ==> writes == |Script(key, answer)|)
      ensures Settled(old(store.State()), store.State(), key, answer, writes, at)
      ensures store.trace == old(store.trace) + ToolEvents(Script(key, answer)[..writes], at)
      ensures ok <==> store.failures == old(store.failures)
    {
      var id := key.id;
      assert id in store.rows by {
        store.Safe();
        OpenPast(store.State(), store.ledgers, store.deleted);
      }
      ScriptStart(store.State(), key, answer, at);
      ghost var made;
      if !answer.Balance? {
        ok, made := store.ToolWrite(Record(id, FailureFrom(key.chain, answer)), at);
        writes := if made then 1 else 0;
        return;
      }
      ok, made := store.ToolWrite(Close(key), at);
      writes := if made then 1 else 0;
      if !ok || answer.atomic <= 0 {
        return;
      }
      ok, made := store.ToolWrite(Save([Finding(id, answer.chain, answer.atomic, answer.symbol)]), at);
      writes := if made then 2 else 1;
      ScriptEnd(old(store.State()), key, answer, at);
    }

    // Rechecks a page of ready entries once. Every entry the pass closes had a balance for an answer. Unless a store
    // call fails, each entry of the page with a provider is handled as its answer demands; if one fails, each before
    // the one being settled is, and that one has lost a positive answer exactly if the process stopped between its
    // two writes and the table did not already hold the amount.
    method RetryFailed(limit: nat, session: Session)
      returns (ok: bool, ghost page: seq<Key>, ghost done: nat, ghost answers: map<Key, Reply>, ghost writes: nat)
      requires store.Valid() && health.Valid()
      modifies store, health
      ensures store.Valid() && health.Valid()
      ensures ok <==> store.failures == old(store.failures)
      ensures done <= |page| && (ok ==> done == |page|)
      ensures ok || done > 0 ==> IsPage(old(store.State()), session.now, limit, page)
      ensures AllAnswer(answers, policy, session)
      ensures PassOk(old(store.State()), store.State(), TermsOf(session), Firsts(page, done),
                     Firsts(page, if ok || done == 0 then done else done - 1), answers)
      ensures !ok && done > 0 ==> page[done - 1] in answers
      ensures !ok && done > 0 && OwnChains(answers) ==>
                LossExplained(old(store.State()), store.State(), page[done - 1], answers[page[done - 1]], writes)
    {
      page, done, answers, writes := [], 0, map[], 0;
      ok := store.Read();
      if !ok {
        PassStarts(store.State(), TermsOf(session));
        return;
      }
      var items := NextRetries(store.State(), session.now, limit);
      page := items;
      PageIsList(store.State(), session.now, limit, page);
      ok, done, answers, writes := RecheckAll(items, session);
    }

    // Rechecks the entries of a page in turn.
    method RecheckAll(page: seq<Key>, session: Session)
      returns (ok: bool, ghost done: nat, ghost answers: map<Key, Reply>, ghost writes: nat)
      requires store.Valid() && health.Valid() && IsList(store.State(), page)
      modifies store, health
      ensures store.Valid() && health.Valid()
      ensures ok <==> store.failures == old(store.failures)
      ensures done <= |page| && (ok ==> done == |page|) && AllAnswer(answers, policy, session)
      ensures PassOk(old(store.State()), store.State(), TermsOf(session), Firsts(page, done),
                     Firsts(page, if ok || done == 0 then done else done - 1), answers)
      ensures !ok ==> done > 0 && page[done - 1] in answers
      ensures !ok && OwnChains(answers) ==>
                LossExplained(old(store.State()), store.State(), page[done - 1], answers[page[done - 1]], writes)
    {
      ghost var before, items := store.State(), {};
      ok, done, answers, writes := true, 0, map[], 0;
      PassStarts(before, TermsOf(session));
      for i := 0 to |page|
        invariant store.Valid() && health.Valid() && ok && store.failures == old(store.failures)
        invariant AllAnswer(answers, policy, session)
        invariant done == i && items == Firsts(page, i)
        invariant PassOk(before, store.State(), TermsOf(session), items, items, answers)
      {
        FirstsGrow(page, i);
        done := i + 1;
        ok, answers, writes := Recheck(before, items, answers, page[i], session);
        if !ok { return; }
        items := items + {page[i]};
      }
    }

    // Rechecks one entry of a pass, unless it has no provider.
    method Recheck(ghost before: Db, ghost done: set<Key>, ghost known: map<Key, Reply>, key: Key, session: Session)
      returns (ok: bool, ghost answers: map<Key, Reply>, ghost writes: nat)
      requires store.Valid() && health.Valid() && key !in done
      requires key in Unresolved(before) && PassOk(before, store.State(), TermsOf(session), done, done, known)
      requires AllAnswer(known, policy, session)
      modifies store, health
      ensures store.Valid() && health.Valid() && AllAnswer(answers, policy, session)
      ensures ok <==> store.failures == old(store.failures)
      ensures PassOk(before, store.State(), TermsOf(session), done + {key}, if ok then done + {key} else done, answers)
      ensures !ok ==> key in answers
      ensures !ok && OwnChains(answers) ==> LossExplained(before, store.State(), key, answers[key], writes)
    {
      answers, writes := known, 0;
      if key.chain !in providers {
        PassSkips(before, store.State(), TermsOf(session), done, answers, key);
        return true, answers, writes;
      }
      ghost var mid := store.State();
      assert key in Unresolved(mid) by {
        OpenPass(before, mid, TermsOf(session), done, done, known);
        assert mid.retries[key] == before.retries[key];
      }
      var answer := Ask(key, session);
      var at := session.now + policy.baseDelay;
      answers := known[key := answer];
      AnswersGrow(known, policy, session, key, answer);
      ok, writes := Settle(key, answer, at);
      PassGoesOn(before, mid, store.State(), TermsOf(session), done, known, key, answer, writes);
    }

    // The provider's answer after all retries; a cancelled check is an error like any other.
    method Ask(key: Key, session: Session) returns (answer: Reply)
      requires health.Valid()
      modifies health
      ensures health.Valid() && Answers(key, answer, policy, session)
    {
      var cancelled;
      ghost var calls, waits, ownWaits, held;
      answer, cancelled, calls, waits, ownWaits, held :=
        Attempts.CheckWithRetry(key.chain, policy, true, health, session.replies(key), session.cancellable);
    }
  }

  datatype RetryEnd = NoneLeft | NothingReady | NoProgress | Failed

  // The passes so far: entries closed only on balances, every positive one stored with its amount, and no finding
  // that was not reported; folded.
  ghost predicate Progress(start: Db, now: Db, heard: map<Key, Reply>, missing: set<Key>) {
    forall depth {:trigger Looking(depth)} :: Looking(depth) && depth == 2 ==> ProgressOk(start, now, heard, missing)
  }

  ghost predicate ProgressOk(start: Db, now: Db, heard: map<Key, Reply>, missing: set<Key>) {
    && start.retries.Keys == now.retries.Keys && Unresolved(now) <= Unresolved(start)
    && ClosedOnBalance(start, now, heard) && PositivesStored(start, now, heard, missing)
    && FindingsFrom(start, now, heard)
    && (forall key :: key in heard && heard[key].Balance? && key !in missing ==> key !in Unresolved(now))
  }

  lemma {:induction false} HeardStays(mid: Db, heard: map<Key, Reply>, answers: map<Key, Reply>)
    requires forall key :: key in heard && heard[key].Balance? ==> key !in Unresolved(mid)
    requires answers.Keys <= Unresolved(mid)
    ensures OwnChains(heard + answers) ==> OwnChains(heard) && OwnChains(answers)
  {
    if OwnChains(heard + answers) {
      forall key | key in heard && heard[key].Balance? ensures heard[key].chain == key.chain {
        assert (heard + answers)[key] == heard[key];
      }
      forall key | key in answers && answers[key].Balance? ensures answers[key].chain == key.chain {
        assert (heard + answers)[key] == answers[key];
      }
    }
  }

  lemma {:induction false} StoredStays(start: Db, mid: Db, after: Db, heard: map<Key, Reply>, answers: map<Key, Reply>,
                                       key: Key)
    requires ProgressOk(start, mid, heard, {}) && FindingsFrom(mid, after, answers) && key !in answers
    requires key in Unresolved(start) && key !in Unresolved(mid) && key in heard && IsPositive(heard[key])
    ensures FindingKey(key, heard[key]) in after.findings
    ensures OwnChains(heard) && OwnChains(answers) ==> Held(after, FindingKey(key, heard[key]), heard[key].atomic)
  {
    if OwnChains(heard) && OwnChains(answers) {
      OwnFindingStays(mid, after, answers, key, heard[key].atomic);
    }
  }

  lemma {:induction false} ClosedInPass(mid: Db, after: Db, terms: Terms, touched: set<Key>,
                                        handled: set<Key>, answers: map<Key, Reply>, key: Key)
    requires PassOk(mid, after, terms, touched, handled, answers) && key in answers && key in handled
    ensures answers[key].Balance? ==> key !in Unresolved(after)
  {
    OpenPass(mid, after, terms, touched, handled, answers);
  }

  lemma {:induction false} ProgressComposes(start: Db, mid: Db, after: Db, terms: Terms,
                                            heard: map<Key, Reply>, answers: map<Key, Reply>, items: set<Key>,
                                            missing: set<Key>)
    requires Progress(start, mid, heard, {}) && PassOk(mid, after, terms, items, items - missing, answers)
    requires missing <= items <= Unresolved(mid)
    ensures Progress(start, after, heard + answers, missing)
  {
    assert Looking(2);
    assert ProgressOk(start, after, heard + answers, missing) by {
      ProgressGoesOn(start, mid, after, terms, heard, answers, items, missing);
    }
  }

  lemma {:induction false} ProgressGoesOn(start: Db, mid: Db, after: Db, terms: Terms,
                                          heard: map<Key, Reply>, answers: map<Key, Reply>, items: set<Key>,
                                          missing: set<Key>)
    requires ProgressOk(start, mid, heard, {}) && PassOk(mid, after, terms, items, items - missing, answers)
    requires missing <= items <= Unresolved(mid)
    ensures ProgressOk(start, after, heard + answers, missing)
  {
    OpenPass(mid, after, terms, items, items - missing, answers);
    assert items - missing + missing == items;
    HandledIsStored(mid, after, terms, items - missing, missing, answers);
    HeardStays(mid, heard, answers);
    FindingsCompose(start, mid, after, heard, answers, heard + answers);
    forall key | key in Unresolved(start) && key !in Unresolved(after)
      ensures key in heard + answers && (heard + answers)[key].Balance?
    {
      ClosedEarlierOrNow(start, mid, after, heard, answers, key);
    }
    forall key | key in Unresolved(start) && key !in Unresolved(after) && key !in missing
        && key in heard + answers && IsPositive((heard + answers)[key])
      ensures FindingKey(key, (heard + answers)[key]) in after.findings
      ensures OwnChains(heard + answers) ==>
                Held(after, FindingKey(key, (heard + answers)[key]), (heard + answers)[key].atomic)
    {
      ClosedEarlierOrNow(start, mid, after, heard, answers, key);
      if key !in Unresolved(mid) {
        StoredStays(start, mid, after, heard, answers, key);
      }
    }
    forall key | key in heard + answers && (heard + answers)[key].Balance? && key !in missing
      ensures key !in Unresolved(after)
    {
      if key in answers { ClosedInPass(mid, after, terms, items, items - missing, answers, key); }
    }
  }

  lemma {:induction false} ClosedEarlierOrNow(start: Db, mid: Db, after: Db, heard: map<Key, Reply>,
                                              answers: map<Key, Reply>, key: Key)
    requires ClosedOnBalance(start, mid, heard) && ClosedOnBalance(mid, after, answers)
    requires answers.Keys <= Unresolved(mid) && key in Unresolved(start) && key !in Unresolved(after)
    ensures if key in Unresolved(mid) then key in answers && answers[key].Balance?
            else key !in answers && key in heard && heard[key].Balance?
  {}

  // An entry that fails is put off by the base delay from the start of the pass.
  function TermsFor(job: Job, session: Session): Terms { Terms(job.providers, session.now + job.policy.baseDelay) }

  lemma {:induction false} PageIsFullPass(before: Db, after: Db, job: Job, session: Session, page: seq<Key>,
                                          answers: map<Key, Reply>)
    requires IsPage(before, session.now, job.batchSize, page) && AllAnswer(answers, job.policy, session)
    requires PassOk(before, after, TermsFor(job, session), Firsts(page, |page|), Firsts(page, |page|), answers)
    ensures FullPass(before, after, job, session)
  {}

  // A pass over a whole page, without a failed call; folded.
  ghost predicate FullPass(before: Db, after: Db, job: Job, session: Session) {
    forall depth {:trigger Looking(depth)} :: Looking(depth) && depth == 4 ==>
      exists page, answers :: IsPage(before, session.now, job.batchSize, page)
        && AllAnswer(answers, job.policy, session)
        && PassOk(before, after, TermsFor(job, session), Firsts(page, |page|), Firsts(page, |page|), answers)
  }

  // Some entry has been closed; folded.
  ghost predicate Closes(before: Db, after: Db) {
    forall depth {:trigger Looking(depth)} :: Looking(depth) && depth == 3 ==> Unresolved(after) < Unresolved(before)
  }

  // The number of unresolved entries tells whether a pass has closed some.
  lemma {:induction false} CountTells(before: Db, after: Db)
    requires Unresolved(after) <= Unresolved(before)
    ensures if |Unresolved(after)| < |Unresolved(before)| then Closes(before, after)
            else Unresolved(after) == Unresolved(before)
  {
    SubsetIsEqualOrSmaller(Unresolved(after), Unresolved(before));
  }

  // Each state comes from the one before by one full pass, in the session it then meets, and each of the first n
  // passes closed something; folded.
  ghost predicate Passes(states: seq<Db>, n: int, job: Job, sessions: nat -> Session) {
    forall depth {:trigger Looking(depth)} :: Looking(depth) && depth == 5 ==>
      && (forall i: nat :: i + 1 < |states| ==> FullPass(states[i], states[i + 1], job, sessions(i)))
      && (forall i: nat :: i < n && i + 1 < |states| ==> Closes(states[i], states[i + 1]))
  }

  lemma {:induction false} PassesExtend(states: seq<Db>, after: Db, job: Job, sessions: nat -> Session)
    requires states != [] && Passes(states, |states| - 1, job, sessions)
    requires FullPass(states[|states| - 1], after, job, sessions(|states| - 1))
    ensures Passes(states + [after], |states| - 1, job, sessions)
    ensures Closes(states[|states| - 1], after) ==> Passes(states + [after], |states|, job, sessions)
  {
    var n := |states| - 1;
    OpenPasses(states, n, job, sessions);
    var longer := states + [after];
    forall i: nat | i < n + 1 ensures FullPass(longer[i], longer[i + 1], job, sessions(i)) {
      assert i < n ==> FullPass(states[i], states[i + 1], job, sessions(i));
    }
    forall i: nat | i < n ensures Closes(longer[i], longer[i + 1]) {
      assert Closes(states[i], states[i + 1]);
    }
    FoldPasses(longer, n, job, sessions);
    if Closes(states[n], after) { FoldPasses(longer, n + 1, job, sessions); }
  }

  lemma {:induction false} OpenPasses(states: seq<Db>, n: int, job: Job, sessions: nat -> Session)
    requires Passes(states, n, job, sessions)
    ensures forall i: nat :: i + 1 < |states| ==> FullPass(states[i], states[i + 1], job, sessions(i))
    ensures forall i: nat :: i < n && i + 1 < |states| ==> Closes(states[i], states[i + 1])
  {
    assert Looking(5);
  }

  lemma {:induction false} FoldPasses(states: seq<Db>, n: int, job: Job, sessions: nat -> Session)
    requires forall i: nat :: i + 1 < |states| ==> FullPass(states[i], states[i + 1], job, sessions(i))
    requires forall i: nat :: i < n && i + 1 < |states| ==> Closes(states[i], states[i + 1])
    ensures Passes(states, n, job, sessions)
  {}

  predicate Stuck(end: Option<RetryEnd>) { end == Some(NothingReady) || end == Some(NoProgress) }

  // What the loop has done, so far or when it has ended. The states are those before and after its full passes: each
  // pass but the last of a stuck loop closed something, and that one nothing. At the end no entry is unresolved, or
  // none that is ready, or some are ready, or a call failed, and then the state can be any within a pass.
  ghost predicate RanOk(end: Option<RetryEnd>, start: Db, now: Db, states: seq<Db>, heard: map<Key, Reply>,
                        missing: set<Key>, job: Job, sessions: nat -> Session) {
    var n := |states| - 1;
    && Progress(start, now, heard, missing) && |missing| <= 1 && (end != Some(Failed) ==> missing == {})
    && n >= 0 && states[0] == start && (end != Some(Failed) ==> states[n] == now)
    && Passes(states, if Stuck(end) then n - 1 else n, job, sessions)
    && (end == Some(NoneLeft) ==> Unresolved(now) == {})
    && (Stuck(end) ==>
          && n >= 1 && Unresolved(states[n - 1]) == Unresolved(now) != {}
          && (end == Some(NothingReady) <==> Ready(now, sessions(n).now) == {}))
  }

  // The same, folded.
  ghost predicate Ran(end: Option<RetryEnd>, start: Db, now: Db, states: seq<Db>, heard: map<Key, Reply>,
                      missing: set<Key>, job: Job, sessions: nat -> Session) {
    forall depth {:trigger Looking(depth)} :: Looking(depth) && depth == 6 ==>
      RanOk(end, start, now, states, heard, missing, job, sessions)
  }

  lemma {:induction false} LoopStarts(start: Db, job: Job, sessions: nat -> Session)
    ensures Ran(None, start, start, [start], map[], {}, job, sessions)
  {}

  lemma {:induction false} LoopMadeProgress(start: Db, now: Db, states: seq<Db>, heard: map<Key, Reply>, job: Job,
                                            sessions: nat -> Session)
    requires Ran(None, start, now, states, heard, {}, job, sessions)
    ensures Progress(start, now, heard, {})
  {
    assert Looking(6);
  }

  lemma {:induction false} LoopFails(start: Db, mid: Db, now: Db, states: seq<Db>, known: map<Key, Reply>,
                                     heard: map<Key, Reply>, missing: set<Key>, job: Job, sessions: nat -> Session)
    requires Ran(None, start, mid, states, known, {}, job, sessions)
    requires Progress(start, now, heard, missing) && |missing| <= 1
    ensures Ran(Some(Failed), start, now, states, heard, missing, job, sessions)
  {
    assert Looking(6);
  }

  lemma {:induction false} LoopIsDone(start: Db, now: Db, states: seq<Db>, heard: map<Key, Reply>,
                                      job: Job, sessions: nat -> Session)
    requires Ran(None, start, now, states, heard, {}, job, sessions) && Unresolved(now) == {}
    ensures Ran(Some(NoneLeft), start, now, states, heard, {}, job, sessions)
  {
    assert Looking(6);
  }

  lemma {:induction false} LoopGoesOn(start: Db, mid: Db, now: Db, states: seq<Db>, known: map<Key, Reply>,
                                      heard: map<Key, Reply>, job: Job, sessions: nat -> Session)
    requires states != [] && Ran(None, start, mid, states, known, {}, job, sessions)
    requires Progress(start, now, heard, {}) && FullPass(mid, now, job, sessions(|states| - 1))
    requires Closes(mid, now)
    ensures Ran(None, start, now, states + [now], heard, {}, job, sessions)
  {
    assert Looking(6);
    PassesExtend(states, now, job, sessions);
  }

  lemma {:induction false} LoopIsStuck(end: RetryEnd, start: Db, mid: Db, now: Db, states: seq<Db>,
                                       known: map<Key, Reply>, heard: map<Key, Reply>, job: Job,
                                       sessions: nat -> Session)
    requires states != [] && Ran(None, start, mid, states, known, {}, job, sessions)
    requires Progress(start, now, heard, {}) && FullPass(mid, now, job, sessions(|states| - 1))
    requires Unresolved(mid) == Unresolved(now) != {}
    requires Stuck(Some(end)) && (end == NothingReady <==> Ready(now, sessions(|states|).now) == {})
    ensures Ran(Some(end), start, now, states + [now], heard, {}, job, sessions)
  {
    assert Looking(6);
    PassesExtend(states, now, job, sessions);
  }

  // Why an entry can be ready at the last look although the last pass closed nothing: it has no provider, its time has
  // come meanwhile, or it did not fit on the page.
  ghost predicate Overlooked(last: Db, key: Key, job: Job, session: Session, look: Time) {
    || key.chain !in job.providers
    || look >= session.now + job.policy.baseDelay
    || key !in Ready(last, session.now)
    || |Ready(last, session.now)| > job.batchSize
  }

  lemma {:induction false} PageLeavesOut(db: Db, now: Time, limit: nat, page: seq<Key>, key: Key)
    requires IsPage(db, now, limit, page) && key in Ready(db, now) && key !in page
    ensures |Ready(db, now)| > limit
  {
    assert Looking(8);
    PageIsList(db, now, limit, page);
    FirstsAreMany(page, |page|);
    assert Firsts(page, |page|) + {key} <= Ready(db, now);
    SubsetIsEqualOrSmaller(Firsts(page, |page|) + {key}, Ready(db, now));
  }

  lemma {:induction false} FirstsAreMany(page: seq<Key>, n: nat)
    requires n <= |page| && forall i, j :: 0 <= i < j < |page| ==> page[i] != page[j]
    ensures |Firsts(page, n)| == n
  {
    if n > 0 {
      FirstsAreMany(page, n - 1);
      FirstsGrow(page, n - 1);
    }
  }

  lemma {:induction false} RefusedIsPutOff(last: Db, now: Db, job: Job, session: Session, look: Time, key: Key)
    requires FullPass(last, now, job, session) && Unresolved(now) == Unresolved(last) && key in Ready(now, look)
    ensures Overlooked(last, key, job, session, look)
  {
    assert Looking(4);
    var page, answers :| IsPage(last, session.now, job.batchSize, page) && AllAnswer(answers, job.policy, session)
      && PassOk(last, now, TermsFor(job, session), Firsts(page, |page|), Firsts(page, |page|), answers);
    OpenPass(last, now, TermsFor(job, session), Firsts(page, |page|), Firsts(page, |page|), answers);
    if key in page {
      assert key in Firsts(page, |page|) && key in Unresolved(now);
    } else if key in Ready(last, session.now) {
      PageLeavesOut(last, session.now, job.batchSize, page, key);
    }
  }

  // When every unresolved entry was rechecked by the last pass and the last look comes before the delay is over,
  // nothing is ready: the loop ends without complaint.
  lemma {:induction false} DelayedLoopIsQuiet(end: RetryEnd, start: Db, now: Db, states: seq<Db>,
                                              heard: map<Key, Reply>, missing: set<Key>, job: Job,
                                              sessions: nat -> Session)
    requires Ran(Some(end), start, now, states, heard, missing, job, sessions) && Stuck(Some(end)) && |states| >= 2
    requires var n := |states| - 2;
             && Unresolved(states[n]) == Ready(states[n], sessions(n).now)
             && |Unresolved(states[n])| <= job.batchSize
             && (forall key :: key in Unresolved(states[n]) ==> key.chain in job.providers)
             && sessions(n + 1).now < sessions(n).now + job.policy.baseDelay
    ensures end == NothingReady
  {
    var n := |states| - 2;
    assert Looking(6);
    OpenPasses(states, n, job, sessions);
    assert FullPass(states[n], states[n + 1], job, sessions(n));
    NothingIsReadyYet(states[n], now, job, sessions(n), sessions(n + 1).now);
  }

  lemma {:induction false} NothingIsReadyYet(last: Db, now: Db, job: Job, session: Session, look: Time)
    requires FullPass(last, now, job, session) && Unresolved(now) == Unresolved(last)
    requires Unresolved(last) == Ready(last, session.now) && |Unresolved(last)| <= job.batchSize
    requires forall key :: key in Unresolved(last) ==> key.chain in job.providers
    requires look < session.now + job.policy.baseDelay
    ensures Ready(now, look) == {}
  {
    forall key | key in Unresolved(now) ensures key !in Ready(now, look) {
      if key in Ready(now, look) { RefusedIsPutOff(last, now, job, session, look, key); }
    }
    assert Ready(now, look) <= Unresolved(now);
  }

  // The operator loop of retry-failed: another pass only after a pass that closed something. Without progress the
  // queue is looked at once more. Over the whole loop every entry closed had a balance, and every positive one is
  // stored, but for at most the one being settled when a store call failed. The sessions say what each pass
  // meets, and the time of the last look.
  method RetryUntilDone(tool: RetryTool, batchSize: nat, sessions: nat -> Session)
    returns (end: RetryEnd, ghost states: seq<Db>, ghost heard: map<Key, Reply>, ghost missing: set<Key>)
    requires tool.store.Valid() && tool.health.Valid()
    modifies tool.store, tool.health
    ensures tool.store.Valid()
    ensures end.Failed? <==> tool.store.failures != old(tool.store.failures)
    ensures Ran(Some(end), old(tool.store.State()), tool.store.State(), states, heard, missing,
                tool.JobOf(batchSize), sessions)
  {
    heard, missing, states := map[], {}, [tool.store.State()];
    LoopStarts(tool.store.State(), tool.JobOf(batchSize), sessions);
    var stop, pass := None, 0;
    while stop.None?
      invariant tool.store.Valid() && tool.health.Valid()
      invariant stop == Some(Failed) <==> tool.store.failures != old(tool.store.failures)
      invariant Ran(stop, old(tool.store.State()), tool.store.State(), states, heard, missing,
                    tool.JobOf(batchSize), sessions)
      invariant stop.None? ==> |states| == pass + 1
      decreases stop.None?, |Unresolved(tool.store.State())|
    {
      stop, states, heard, missing :=
        Turn(tool, batchSize, pass, sessions, old(tool.store.State()), states, heard);
      pass := pass + 1;
    }
    end := stop.value;
  }

  // One turn of the loop: a round, and if it closed nothing, the last look.
  method Turn(tool: RetryTool, batchSize: nat, pass: nat, sessions: nat -> Session, ghost start: Db,
              ghost before: seq<Db>, ghost known: map<Key, Reply>)
    returns (stop: Option<RetryEnd>, ghost states: seq<Db>, ghost heard: map<Key, Reply>, ghost missing: set<Key>)
    requires tool.store.Valid() && tool.health.Valid() && |before| == pass + 1
    requires Ran(None, start, tool.store.State(), before, known, {}, tool.JobOf(batchSize), sessions)
    modifies tool.store, tool.health
    ensures tool.store.Valid() && tool.health.Valid()
    ensures stop == Some(Failed) <==> tool.store.failures != old(tool.store.failures)
    ensures Ran(stop, start, tool.store.State(), states, heard, missing, tool.JobOf(batchSize), sessions)
    ensures stop.None? ==> |states| == |before| + 1
    ensures stop.None? ==> |Unresolved(tool.store.State())| < |Unresolved(old(tool.store.State()))|
  {
    ghost var mid, job := tool.store.State(), tool.JobOf(batchSize);
    LoopMadeProgress(start, mid, before, known, job, sessions);
    var stuck;
    stop, stuck, heard, missing := Round(tool, start, batchSize, sessions(pass), known);
    states := before;
    if stop.None? && stuck {
      var end := WhatIsLeft(tool.store, sessions(pass + 1).now);
      stop := Some(end);
    }
    if stop == Some(NoneLeft) {
      LoopIsDone(start, mid, before, known, job, sessions);
    } else if stop == Some(Failed) {
      LoopFails(start, mid, tool.store.State(), before, known, heard, missing, job, sessions);
    } else {
      states := before + [tool.store.State()];
      if stop.Some? {
        LoopIsStuck(stop.value, start, mid, tool.store.State(), before, known, heard, job, sessions);
      } else {
        LoopGoesOn(start, mid, tool.store.State(), before, known, heard, job, sessions);
      }
    }
  }

  // One round: the status, a pass, and the status again.
  method Round(tool: RetryTool, ghost start: Db, batchSize: nat, session: Session, ghost before: map<Key, Reply>)
    returns (stop: Option<RetryEnd>, stuck: bool, ghost heard: map<Key, Reply>, ghost missing: set<Key>)
    requires tool.store.Valid() && tool.health.Valid() && Progress(start, tool.store.State(), before, {})
    modifies tool.store, tool.health
    ensures tool.store.Valid() && tool.health.Valid()
    ensures Progress(start, tool.store.State(), heard, missing)
    ensures |missing| <= 1 && (stop != Some(Failed) ==> missing == {})
    ensures stop.Some? ==> stop.value.NoneLeft? || stop.value.Failed?
    ensures stop == Some(Failed) <==> tool.store.failures != old(tool.store.failures)
    ensures stop == Some(NoneLeft) ==> tool.store.State() == old(tool.store.State()) && heard == before
    ensures stop == Some(NoneLeft) ==> Unresolved(tool.store.State()) == {}
    ensures stop.None? ==> FullPass(old(tool.store.State()), tool.store.State(), tool.JobOf(batchSize), session)
    ensures stop.None? && stuck ==> Unresolved(old(tool.store.State())) == Unresolved(tool.store.State()) != {}
    ensures stop.None? && !stuck ==> (
              && Closes(old(tool.store.State()), tool.store.State())
              && |Unresolved(tool.store.State())| < |Unresolved(old(tool.store.State()))|)
  {
    ghost var mid := tool.store.State();
    heard, missing, stuck := before, {}, false;
    var ok := tool.store.Read();
    if !ok { return Some(Failed), stuck, heard, missing; }
    var count := |Unresolved(tool.store.State())|;
    if count == 0 { return Some(NoneLeft), stuck, heard, missing; }
    ok, heard, missing := Pass(tool, start, batchSize, session, before);
    if ok { ok := tool.store.Read(); }
    if !ok { return Some(Failed), stuck, heard, missing; }
    CountTells(mid, tool.store.State());
    return None, |Unresolved(tool.store.State())| >= count, heard, missing;
  }

  lemma {:induction false} SmallerSet<T>(a: set<T>, b: set<T>)
    requires a < b
    ensures |a| < |b|
  {
    assert b == a + (b - a);
  }

  lemma {:induction false} SubsetIsEqualOrSmaller<T>(a: set<T>, b: set<T>)
    requires a <= b
    ensures |a| <= |b| && (|a| == |b| <==> a == b)
  {
    if a != b { SmallerSet(a, b); }
  }

  // One pass of the loop.
  method Pass(tool: RetryTool, ghost start: Db, batchSize: nat, session: Session, ghost before: map<Key, Reply>)
    returns (ok: bool, ghost heard: map<Key, Reply>, ghost missing: set<Key>)
    requires tool.store.Valid() && tool.health.Valid() && Progress(start, tool.store.State(), before, {})
    modifies tool.store, tool.health
    ensures tool.store.Valid() && tool.health.Valid()
    ensures ok <==> tool.store.failures == old(tool.store.failures)
    ensures Progress(start, tool.store.State(), heard, missing) && |missing| <= 1 && (ok ==> missing == {})
    ensures ok ==> FullPass(old(tool.store.State()), tool.store.State(), tool.JobOf(batchSize), session)
    ensures Unresolved(tool.store.State()) <= Unresolved(old(tool.store.State()))
  {
    ghost var page, done, answers, writes;
    ghost var mid := tool.store.State();
    ok, page, done, answers, writes := tool.RetryFailed(batchSize, session);
    missing := if ok || done == 0 then {} else {page[done - 1]};
    heard := before + answers;
    PassMakesProgress(start, mid, tool.store.State(), tool.JobOf(batchSize), session, before, page, done, ok, answers);
  }

  lemma {:induction false} PassMakesProgress(start: Db, mid: Db, after: Db, job: Job, session: Session,
                                             before: map<Key, Reply>, page: seq<Key>, done: nat, ok: bool,
                                             answers: map<Key, Reply>)
    requires Progress(start, mid, before, {}) && AllAnswer(answers, job.policy, session)
    requires done <= |page| && (ok ==> done == |page|)
    requires ok || done > 0 ==> IsPage(mid, session.now, job.batchSize, page)
    requires PassOk(mid, after, TermsFor(job, session), Firsts(page, done),
                    Firsts(page, if ok || done == 0 then done else done - 1), answers)
    ensures Progress(start, after, before + answers, if ok || done == 0 then {} else {page[done - 1]})
    ensures ok ==> FullPass(mid, after, job, session)
    ensures Unresolved(after) <= Unresolved(mid)
  {
    var terms, items := TermsFor(job, session), Firsts(page, done);
    var missing := if ok || done == 0 then {} else {page[done - 1]};
    PageIsUnresolved(mid, session.now, job.batchSize, page, done, ok);
    assert Firsts(page, if ok || done == 0 then done else done - 1) == items - missing;
    ProgressComposes(start, mid, after, terms, before, answers, items, missing);
    PassClosesOnly(mid, after, terms, items, items - missing, answers);
    if ok { PageIsFullPass(mid, after, job, session, page, answers); }
  }

  lemma {:induction false} PageIsUnresolved(db: Db, now: Time, limit: nat, page: seq<Key>, done: nat, ok: bool)
    requires done <= |page| && (ok || done > 0 ==> IsPage(db, now, limit, page))
    ensures Firsts(page, done) <= Unresolved(db)
    ensures done > 0 ==> Firsts(page, done - 1) == Firsts(page, done) - {page[done - 1]}
  {
    if done > 0 {
      PageIsList(db, now, limit, page);
      FirstsGrow(page, done - 1);
    }
  }

  lemma {:induction false} OnePageTells(db: Db, now: Time, page: seq<Key>)
    requires IsPage(db, now, 1, page)
    ensures page == [] <==> Ready(db, now) == {}
  {
    assert Looking(8);
    assert page != [] ==> page[0] in Ready(db, now);
    assert forall key :: key in Ready(db, now) ==> Waits(db, now, key);
  }

  // After a pass without progress: is there anything ready?
  method WhatIsLeft(store: Store, now: Time) returns (end: RetryEnd)
    modifies store`failures
    ensures end.Failed? <==> store.failures != old(store.failures)
    ensures !end.Failed? ==> end == if Ready(store.State(), now) == {} then NothingReady else NoProgress
  {
    var ok := store.Read();
    if !ok { return Failed; }
    var ready := NextRetries(store.State(), now, 1);
    OnePageTells(store.State(), now, ready);
    return if |ready| == 0 then NothingReady else NoProgress;
  }

  // Cleanup.

  class Cleaner {
    const store: Store

    constructor (store: Store)
      ensures this.store == store
    {
      this.store := store;
    }

    // Deletes one bounded batch; a batch size below one is refused.
    method Run(cutoff: Time, batchSize: int) returns (ok: bool, deleted: nat, ghost gone: set<int>)
      requires store.Valid()
      modifies store
      ensures store.Valid()
      ensures gone <= EligibleIds(old(store.State()), cutoff) && store.State() == Delete(old(store.State()), gone)
      ensures batchSize < 1 ==> !ok && gone == {}
      ensures batchSize >= 1 ==> (ok <==> store.failures == old(store.failures))
      ensures ok ==> deleted == |gone| <= batchSize
      ensures ok && deleted == 0 ==> EligibleIds(old(store.State()), cutoff) == {}
    {
      deleted, gone := 0, {};
      ghost var before := store.State();
      NothingDeleted(before);
      if batchSize < 1 {
        return false, 0, {};
      }
      assert IdsOk(before) by {
        store.Safe();
        OpenPast(store.State(), store.ledgers, store.deleted);
      }
      var ids;
      ok, ids := store.DeleteCandidates(cutoff, batchSize);
      CandidatesAreEligible(before, cutoff, batchSize);
      gone := if store.State() == before then {} else set id | id in ids;
      while deleted < |ids|
        invariant deleted <= |ids|
      {
        deleted := deleted + 1;
      }
      if ok && store.State() == before {
        NothingToDelete(before, set id | id in ids);
      }
    }
  }

  lemma {:induction false} NothingDeleted(db: Db)
    ensures Delete(db, {}) == db
  {}

  // A statement that changed nothing had nothing to delete.
  lemma {:induction false} NothingToDelete(db: Db, gone: set<int>)
    requires Delete(db, gone) == db && gone <= db.rows.Keys
    ensures gone == {}
  {
    if id :| id in gone { assert id !in Delete(db, gone).rows; }
  }

  lemma {:induction false} CandidatesAreEligible(db: Db, cutoff: Time, limit: nat)
    requires IdsOk(db) && limit >= 1
    ensures var ids := Candidates(db, cutoff, limit);
            var gone := set id | id in ids;
            && |gone| == |ids| <= limit && gone <= EligibleIds(db, cutoff) && gone <= db.rows.Keys
            && (ids == [] ==> EligibleIds(db, cutoff) == {})
  {
    var ids := Candidates(db, cutoff, limit);
    SelectIsPage(EligibleIds(db, cutoff), 0, db.nextId - 1, limit);
    AscendingIdsAreDistinct(ids);
    forall id | id in EligibleIds(db, cutoff) ensures ids != [] { assert 0 < id <= db.nextId - 1; }
  }

  lemma {:induction false} AscendingIdsAreDistinct(ids: seq<int>)
    requires Ascending(ids)
    ensures |set id | id in ids| == |ids|
  {
    if ids != [] {
      var n := |ids| - 1;
      AscendingIdsAreDistinct(ids[..n]);
      assert (set id | id in ids) == (set id | id in ids[..n]) + {ids[n]};
    }
  }

  // Deleting eligible rows changes nobody else's eligibility.
  lemma {:induction false} EligibilityAfterDelete(db: Db, gone: set<int>, cutoff: Time)
    ensures EligibleIds(Delete(db, gone), cutoff) == EligibleIds(db, cutoff) - gone
  {
    forall id ensures id in EligibleIds(Delete(db, gone), cutoff) <==> id in EligibleIds(db, cutoff) && id !in gone {
      assert Eligible(Delete(db, gone), cutoff, id) <==> Eligible(db, cutoff, id) && id !in gone;
    }
  }

  lemma {:induction false} DeletesCompose(db: Db, a: set<int>, b: set<int>)
    ensures Delete(Delete(db, a), b) == Delete(db, a + b)
  {
    assert db.rows - a - b == db.rows - (a + b);
    assert Delete(Delete(db, a), b).index == Delete(db, a + b).index;
  }

  // One more batch, seen from the start of the loop.
  lemma {:induction false} SweepsCompose(start: Db, gone: set<int>, more: set<int>, cutoff: Time)
    requires gone <= EligibleIds(start, cutoff) && more <= EligibleIds(Delete(start, gone), cutoff)
    ensures gone + more <= EligibleIds(start, cutoff)
    ensures Delete(Delete(start, gone), more) == Delete(start, gone + more)
    ensures |EligibleIds(start, cutoff) - (gone + more)| + |more| == |EligibleIds(start, cutoff) - gone|
    ensures EligibleIds(Delete(start, gone), cutoff) == {} ==> gone == EligibleIds(start, cutoff)
  {
    EligibilityAfterDelete(start, gone, cutoff);
    DeletesCompose(start, gone, more);
    SetsShrink(EligibleIds(start, cutoff), gone, more);
  }

  lemma {:induction false} SetsShrink(all: set<int>, gone: set<int>, more: set<int>)
    requires gone <= all && more <= all - gone
    ensures |all - (gone + more)| + |more| == |all - gone|
  {
    assert all - gone == (all - (gone + more)) + more;
  }

  // A row that has to stay: no completed run over its id is old enough, or it has a finding or a queue entry.
  ghost predicate StillNeeded(db: Db, cutoff: Time, id: int) {
    || (forall i :: 0 <= i < |db.runs| && db.runs[i].Covers(id) ==>
          !db.runs[i].status.Completed? || db.runs[i].completedAt >= cutoff)
    || (exists key :: key in db.findings && key.id == id)
    || (exists key :: key in db.retries && key.id == id)
  }

  lemma {:induction false} EligibleIsNotNeeded(db: Db, cutoff: Time, id: int)
    requires id in db.rows
    ensures id in EligibleIds(db, cutoff) <==> !StillNeeded(db, cutoff, id)
  {
    assert id in EligibleIds(db, cutoff) <==> Eligible(db, cutoff, id);
  }

  // The operator loop of cleanup: run alone to its end it deletes exactly the eligible addresses.
  method CleanUp(cleaner: Cleaner, cutoff: Time, batchSize: int) returns (ok: bool, ghost gone: set<int>)
    requires cleaner.store.Valid()
    modifies cleaner.store
    ensures cleaner.store.Valid()
    ensures gone <= EligibleIds(old(cleaner.store.State()), cutoff)
    ensures cleaner.store.State() == Delete(old(cleaner.store.State()), gone)
    ensures ok ==> gone == EligibleIds(old(cleaner.store.State()), cutoff)
    ensures ok ==> forall id :: id in old(cleaner.store.rows) ==>
              (id in cleaner.store.rows <==> StillNeeded(old(cleaner.store.State()), cutoff, id))
    ensures batchSize >= 1 ==> (ok <==> cleaner.store.failures == old(cleaner.store.failures))
    ensures batchSize < 1 ==> !ok && gone == {}
  {
    ghost var start := cleaner.store.State();
    gone := {};
    NothingDeleted(start);
    while true
      invariant cleaner.store.Valid()
      invariant gone <= EligibleIds(start, cutoff) && cleaner.store.State() == Delete(start, gone)
      invariant cleaner.store.failures == old(cleaner.store.failures) && (batchSize < 1 ==> gone == {})
      decreases |EligibleIds(start, cutoff) - gone|
    {
      var deleted;
      ghost var more;
      ok, deleted, more := cleaner.Run(cutoff, batchSize);
      SweepsCompose(start, gone, more, cutoff);
      gone := gone + more;
      if !ok { return; }
      if deleted == 0 {
        forall id | id in start.rows ensures id in EligibleIds(start, cutoff) <==> !StillNeeded(start, cutoff, id) {
          EligibleIsNotNeeded(start, cutoff, id);
        }
        return;
      }
    }
  }
}
