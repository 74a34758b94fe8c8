// The counters of a run are exact: each address of the range up to the cursor is counted once.
module ProtocolCounts {
  import opened Domain
  import opened Results
  import opened Tables
  import opened Protocol
  import opened ProtocolInvariant
  import opened ProtocolSafety

  function LedgerIds(ledger: Ledger): set<int> {
    set k | 0 <= k < |ledger| :: ledger[k].id
  }

  lemma {:induction false} DistinctIdsAreCounted(ledger: Ledger)
    requires Distinct(ledger)
    ensures |LedgerIds(ledger)| == |ledger|
  {
    if ledger == [] {
      assert LedgerIds(ledger) == {};
    } else {
      var n := |ledger| - 1;
      DistinctIdsAreCounted(ledger[..n]);
      assert LedgerIds(ledger) == LedgerIds(ledger[..n]) + {ledger[n].id};
      assert ledger[n].id !in LedgerIds(ledger[..n]);
    }
  }

  // The addresses, deleted since or not, that a cursor has passed in its run.
  ghost function Passed(w: World, run: Run): set<int> {
    set id | id in w.db.rows.Keys + w.deleted.Keys && run.start <= id <= run.cursor
  }

  lemma {:induction false} LedgerHoldsPassed(w: World, i: nat)
    requires PastOk(w.db, w.ledgers, w.deleted) && i < |w.db.runs|
    ensures LedgerIds(w.ledgers[i]) == Passed(w, w.db.runs[i])
    ensures !w.db.runs[i].status.Completed? ==> Passed(w, w.db.runs[i]) <= w.db.rows.Keys
  {
    var run, ledger := w.db.runs[i], w.ledgers[i];
    assert LedgerOk(w.db, w.deleted, run, ledger);
    forall id | id in LedgerIds(ledger) ensures id in Passed(w, run) && (!run.status.Completed? ==> id in w.db.rows) {
      var k :| 0 <= k < |ledger| && ledger[k].id == id;
      assert EntryOk(w.db, w.deleted, run, ledger[k]);
    }
    forall id | id in Passed(w, run) ensures id in LedgerIds(ledger) {
      if id in w.db.rows {
        assert Counted(ledger, id);
      } else {
        DeletedIsCountedHere(w, i, id);
      }
    }
  }

  lemma {:induction false} DeletedIsCountedHere(w: World, i: nat, id: int)
    requires PastOk(w.db, w.ledgers, w.deleted) && i < |w.db.runs| && id in w.deleted && w.db.runs[i].Covers(id)
    ensures id in LedgerIds(w.ledgers[i])
  {
    var j, k := DeletedWasCounted(w, id);
    OneRunCovers(w.db, i, j, id);
  }

  lemma {:induction false} OneRunCovers(db: Db, i: nat, j: nat, id: int)
    requires RunsOk(db) && i < |db.runs| && j < |db.runs|
    requires db.runs[i].Covers(id) && db.runs[j].Covers(id)
    ensures i == j
  {}

  lemma {:induction false} DeletedWasCounted(w: World, id: int) returns (j: nat, k: nat)
    requires PastOk(w.db, w.ledgers, w.deleted) && id in w.deleted
    ensures j < |w.db.runs| && k < |w.ledgers[j]| && w.ledgers[j][k].id == id
    ensures w.db.runs[j].Covers(id) && w.db.runs[j].status.Completed?
  {
    assert Vindicated(w.db.runs, w.ledgers, id, w.deleted[id].kind);
    j, k :| j < |w.ledgers| && j < |w.db.runs| && k < |w.ledgers[j]| && w.db.runs[j].status.Completed?
      && w.ledgers[j][k].id == id;
    assert LedgerOk(w.db, w.deleted, w.db.runs[j], w.ledgers[j]);
    assert EntryOk(w.db, w.deleted, w.db.runs[j], w.ledgers[j][k]) && RunOk(w.db, w.db.runs[j]);
  }

  lemma {:induction false} ProcessedIsDistinctIds(w: World, i: nat)
    requires PastOk(w.db, w.ledgers, w.deleted) && i < |w.db.runs|
    ensures Distinct(w.ledgers[i]) && w.db.runs[i].processed == |LedgerIds(w.ledgers[i])|
  {
    assert LedgerOk(w.db, w.deleted, w.db.runs[i], w.ledgers[i]);
    DistinctIdsAreCounted(w.ledgers[i]);
  }

  ghost function Remaining(w: World, run: Run): set<int> {
    set id | id in w.db.rows && run.start <= id <= run.cursor
  }

  // After any run of the system: processed_count is the number of addresses up to the cursor, each counted
  // once; an active run has lost none of them; a completed run has reached its end.
  lemma {:induction false} ProcessedCountIsExact(events: seq<Event>, i: nat)
    requires Possible(GENESIS, events) && i < |End(GENESIS, events).db.runs|
    ensures var w := End(GENESIS, events);
            var run := w.db.runs[i];
            && i < |w.ledgers| && Distinct(w.ledgers[i])
            && LedgerIds(w.ledgers[i]) == Passed(w, run)
            && run.processed == |Passed(w, run)|
            && (if run.status.Completed? then run.cursor == run.end else run.processed == |Remaining(w, run)|)
  {
    EveryRunKeepsInv(events);
    var w := End(GENESIS, events);
    OpenPast(w.db, w.ledgers, w.deleted);
    ProcessedIsDistinctIds(w, i);
    LedgerHoldsPassed(w, i);
    assert RunOk(w.db, w.db.runs[i]);
    if !w.db.runs[i].status.Completed? {
      assert Passed(w, w.db.runs[i]) == Remaining(w, w.db.runs[i]);
    }
  }

  function NonPositiveAnswers(entry: Entry): nat { NonPositive(entry.answers) }

  function ChainCount(entry: Entry): nat { |ChainsFor(entry.kind)| }

  lemma {:induction false} AnswersAddUp(ledger: Ledger)
    requires forall k :: 0 <= k < |ledger| ==> Answered(ledger[k])
    ensures Sum(EntryFindings, ledger) + Sum(EntryErrors, ledger) + Sum(NonPositiveAnswers, ledger)
         == Sum(ChainCount, ledger)
    ensures |ledger| <= Sum(EmptyEntry, ledger) + Sum(EntryFindings, ledger) + Sum(EntryErrors, ledger)
  {
    if ledger != [] {
      var n := |ledger| - 1;
      AnswersAddUp(ledger[..n]);
      AnswersAreConserved(ledger[n].id, ledger[n].kind, ledger[n].answers);
    }
  }

  // The answers of an address, counted one by one.

  function CountIf(holds: Reply -> bool, answers: seq<Reply>): nat {
    if answers == [] then 0
    else CountIf(holds, answers[..|answers| - 1]) + if holds(answers[|answers| - 1]) then 1 else 0
  }

  predicate IsError(answer: Reply) { !answer.Balance? }

  predicate IsGain(answer: Reply) { answer.Balance? && answer.atomic > 0 }

  function Gains(entry: Entry): nat { CountIf(IsGain, entry.answers) }

  function Errors(entry: Entry): nat { CountIf(IsError, entry.answers) }

  function Blank(entry: Entry): nat { if Empty(entry) then 1 else 0 }

  lemma {:induction false} ListsCountAnswers(id: int, kind: AddressType, answers: seq<Reply>)
    requires |answers| <= |ChainsFor(kind)|
    ensures |FindingsOf(id, answers)| == CountIf(IsGain, answers)
    ensures |ErrorsOf(kind, answers)| == CountIf(IsError, answers)
  {
    if answers != [] { ListsCountAnswers(id, kind, answers[..|answers| - 1]); }
  }

  lemma {:induction false} NoneCountedIffEmpty(answers: seq<Reply>)
    ensures CountIf(IsGain, answers) + CountIf(IsError, answers) == 0 <==>
              forall k :: 0 <= k < |answers| ==> answers[k].Balance? && answers[k].atomic <= 0
  {
    if answers != [] {
      var n := |answers| - 1;
      NoneCountedIffEmpty(answers[..n]);
      assert forall k :: 0 <= k < n ==> answers[..n][k] == answers[k];
    }
  }

  lemma {:induction false} EntryIsCounted(entry: Entry)
    requires Answered(entry)
    ensures EntryFindings(entry) == Gains(entry) && EntryErrors(entry) == Errors(entry)
    ensures EmptyEntry(entry) == Blank(entry)
  {
    ListsCountAnswers(entry.id, entry.kind, entry.answers);
    NoneCountedIffEmpty(entry.answers);
  }

  lemma {:induction false} LedgerIsCounted(ledger: Ledger)
    requires forall k :: 0 <= k < |ledger| ==> Answered(ledger[k])
    ensures CountLedger(ledger) == Counters(|ledger|, Sum(Blank, ledger), Sum(Gains, ledger), Sum(Errors, ledger))
  {
    if ledger != [] {
      LedgerIsCounted(ledger[..|ledger| - 1]);
      EntryIsCounted(ledger[|ledger| - 1]);
    }
  }

  // The counters are those of the answers in the ledger: positive balances, errors, and addresses with neither. With
  // the balances that are not positive they add up to the chains of the counted addresses.
  lemma {:induction false} CountersAreConserved(events: seq<Event>, i: nat)
    requires Possible(GENESIS, events) && i < |End(GENESIS, events).db.runs|
    ensures var w := End(GENESIS, events);
            var run := w.db.runs[i];
            && i < |w.ledgers|
            && run.processed == |w.ledgers[i]| && run.positive == Sum(Gains, w.ledgers[i])
            && run.errors == Sum(Errors, w.ledgers[i]) && run.empty == Sum(Blank, w.ledgers[i])
            && run.positive + run.errors + Sum(NonPositiveAnswers, w.ledgers[i]) == Sum(ChainCount, w.ledgers[i])
            && run.processed <= run.empty + run.positive + run.errors
  {
    EveryRunKeepsInv(events);
    var w := End(GENESIS, events);
    OpenPast(w.db, w.ledgers, w.deleted);
    var run, ledger := w.db.runs[i], w.ledgers[i];
    assert LedgerOk(w.db, w.deleted, run, ledger);
    forall k | 0 <= k < |ledger| ensures Answered(ledger[k]) { assert EntryOk(w.db, w.deleted, run, ledger[k]); }
    AnswersAddUp(ledger);
    LedgerIsCounted(ledger);
  }
}
