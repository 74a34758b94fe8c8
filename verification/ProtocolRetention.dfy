// Retention: an address is deleted only some time after the scan that found it empty was completed.
module ProtocolRetention {
  import opened Tables
  import opened Protocol
  import opened ProtocolInvariant
  import opened ProtocolSafety

  // A run is completed by the event that says so, at the time it says, and by nothing else.
  lemma {:induction false} OnlyCompletionCompletes(w: World, e: Event, i: nat)
    requires Inv(w) && Enabled(w, e) && i < |Apply(w, e).db.runs| && Apply(w, e).db.runs[i].status.Completed?
    ensures if i < |w.db.runs| && w.db.runs[i].status.Completed? then Apply(w, e).db.runs[i] == w.db.runs[i]
            else e.Complete? && w.proc == Completing(i) && Apply(w, e).db.runs[i].completedAt == e.now
  {
    if i < |w.db.runs| && w.db.runs[i].status.Completed? {
      CursorNeverMovesBack(w, e, i);
    } else if !TouchesRuns(e) {
      OtherEventsKeepRuns(w, e);
      assert false;
    }
  }

  // The j-th event completed the run, at the time the table shows.
  ghost predicate CompletedBy(events: seq<Event>, j: nat, i: nat, at: Time)
    requires Possible(GENESIS, events)
  {
    && j < |events| && events[j] == Complete(at)
    && Possible(GENESIS, events[..j]) && End(GENESIS, events[..j]).proc == Completing(i)
  }

  lemma {:induction false} CompletionIsInHistory(events: seq<Event>, i: nat) returns (j: nat)
    requires Possible(GENESIS, events) && i < |End(GENESIS, events).db.runs|
    requires End(GENESIS, events).db.runs[i].status.Completed?
    ensures CompletedBy(events, j, i, End(GENESIS, events).db.runs[i].completedAt)
  {
    var n := |events| - 1;
    var before, e := events[..n], events[n];
    var w := End(GENESIS, before);
    EveryRunKeepsInv(before);
    OnlyCompletionCompletes(w, e, i);
    if i < |w.db.runs| && w.db.runs[i].status.Completed? {
      j := CompletionIsInHistory(before, i);
      assert before[..j] == events[..j];
    } else {
      j := n;
    }
  }

  // Whatever a cleanup deletes was covered by a run that an earlier event had completed before the cutoff,
  // and had no finding and no queue entry.
  lemma {:induction false} RetentionIsHonoured(events: seq<Event>, cutoff: Time, limit: nat, id: int)
    returns (i: nat, j: nat)
    requires Possible(GENESIS, events)
    requires id in End(GENESIS, events).db.rows
    requires id !in Apply(End(GENESIS, events), Sweep(cutoff, limit)).db.rows
    ensures var w := End(GENESIS, events);
            && i < |w.db.runs| && w.db.runs[i].Covers(id) && w.db.runs[i].completedAt < cutoff
            && CompletedBy(events, j, i, w.db.runs[i].completedAt)
            && (forall key :: key in w.db.findings || key in w.db.retries ==> key.id != id)
  {
    var w := End(GENESIS, events);
    SelectIsPage(EligibleIds(w.db, cutoff), 0, w.db.nextId - 1, limit);
    assert id in Candidates(w.db, cutoff, limit);
    assert Eligible(w.db, cutoff, id);
    i :| i < |w.db.runs| && w.db.runs[i].status.Completed? && w.db.runs[i].completedAt < cutoff
      && w.db.runs[i].Covers(id);
    j := CompletionIsInHistory(events, i);
  }
}
