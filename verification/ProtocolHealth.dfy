// The health book over a whole run: the replay of what its batches were answered.
module ProtocolHealth {
  import opened Domain
  import opened Results
  import opened Protocol
  import opened ProtocolInvariant
  import opened ProtocolSafety
  import H = Health
  import PoolHealth
  import PoolBatch

  lemma {:induction false} OnlyProbesTell(w: World, e: Event)
    requires Enabled(w, e) && !e.Begin? && !e.Probe? && !Apply(w, e).proc.Idle?
    ensures !w.proc.Idle? && Apply(w, e).mind == w.mind
  {}

  // From the beginning of a run the book is the replay of a log of successes, failures and alerts.
  lemma {:induction false} BookIsReplayed(events: seq<Event>) returns (log: seq<H.Event>)
    requires Possible(GENESIS, events) && !End(GENESIS, events).proc.Idle?
    ensures var mind := End(GENESIS, events).mind;
            H.Leaves(BookAtStart(events), log, mind.setup.threshold, mind.health)
  {
    var n := |events| - 1;
    var w, e := End(GENESIS, events[..n]), events[n];
    if e.Begin? {
      log := [];
    } else if e.Probe? {
      EveryRunKeepsInv(events[..n]);
      var past := BookIsReplayed(events[..n]);
      var more := PoolBatch.OutcomeIsTold(w.mind.setup, w.proc.batch, w.mind.width, w.mind.health, e.results, e.health);
      PoolBatch.OpenTold(w.mind.setup, w.mind.health, more, e.results, e.health);
      H.HistoriesCompose(BookAtStart(events[..n]), past, w.mind.health, more, e.health, w.mind.setup.threshold);
      log := past + more;
    } else {
      OnlyProbesTell(w, e);
      log := BookIsReplayed(events[..n]);
    }
  }

  // A request to pause comes from a check that failed on a chain whose failures since its last success had then
  // reached the threshold.
  ghost predicate Justified(start: H.Book, log: seq<H.Event>, threshold: nat) {
    exists n, chain :: IllAt(start, log, threshold, n, chain)
  }

  ghost predicate IllAt(start: H.Book, log: seq<H.Event>, threshold: nat, n: int, chain: Chain) {
    0 <= n < |log| && log[n] == H.Query(chain) && H.IllAfter(start, log[..n], threshold, chain)
  }

  lemma {:induction false} CauseIsSeenFromStart(start: H.Book, past: seq<H.Event>, mid: H.Book, more: seq<H.Event>,
                                                threshold: nat, end: H.Book, r: Result)
    requires H.Leaves(start, past, threshold, mid) && H.Leaves(mid, more, threshold, end)
    requires r.pause && PoolHealth.ResultHasCauses(mid, more, threshold, r)
    ensures Justified(start, past + more, threshold)
  {
    var n, k :| PoolHealth.CauseOfPause(mid, more, threshold, r, n, k);
    var chain := ChainsFor(r.address.kind)[k];
    assert Looking(0);
    H.PrefixLeaves(mid, more, threshold, n);
    var book := H.Replay(mid, more[..n], threshold);
    H.HistoriesCompose(start, past, mid, more[..n], book, threshold);
    PoolHealth.BookKnows(mid, more[..n], threshold, book, chain);
    PoolHealth.BookKnows(start, past + more[..n], threshold, book, chain);
    assert (past + more)[..|past| + n] == past + more[..n];
    assert IllAt(start, past + more, threshold, |past| + n, chain);
  }

  lemma {:induction false} PauseIsJustified(events: seq<Event>) returns (log: seq<H.Event>)
    requires Possible(GENESIS, events) && End(GENESIS, events).proc.Writing?
    requires Pausing(End(GENESIS, events).proc.results)
    ensures var mind := End(GENESIS, events).mind;
            && H.Leaves(BookAtStart(events), log, mind.setup.threshold, mind.health)
            && Justified(BookAtStart(events), log, mind.setup.threshold)
  {
    var n := |events| - 1;
    var w, e := End(GENESIS, events[..n]), events[n];
    if e.Probe? {
      EveryRunKeepsInv(events[..n]);
      var past := BookIsReplayed(events[..n]);
      var more := PoolBatch.OutcomeIsTold(w.mind.setup, w.proc.batch, w.mind.width, w.mind.health, e.results, e.health);
      PoolBatch.OpenTold(w.mind.setup, w.mind.health, more, e.results, e.health);
      var i :| 0 <= i < |e.results| && e.results[i].pause;
      CauseIsSeenFromStart(BookAtStart(events[..n]), past, w.mind.health, more, w.mind.setup.threshold, e.health,
                           e.results[i]);
      H.HistoriesCompose(BookAtStart(events[..n]), past, w.mind.health, more, e.health, w.mind.setup.threshold);
      log := past + more;
    } else {
      StillWriting(w, e);
      log := PauseIsJustified(events[..n]);
    }
  }

  lemma {:induction false} StillWriting(w: World, e: Event)
    requires Enabled(w, e) && !e.Probe? && Apply(w, e).proc.Writing?
    ensures !e.Begin? && w.proc.Writing? && w.proc.results == Apply(w, e).proc.results && Apply(w, e).mind == w.mind
  {}
}
