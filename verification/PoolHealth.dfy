// What the worker pool tells the health book, and what follows for pauses and alerts.
module PoolHealth {
  import opened Domain
  import opened Results
  import opened Attempts
  import opened Pool
  import opened PoolInvariant
  import opened PoolRuns
  import H = Health

  // The calls, read off the replies.

  // A reply that ends the attempts for a chain with an error.
  predicate Refuses(policy: Policy, attempt: nat, reply: Reply) {
    !reply.Balance? && (!IsTemporary(reply) || attempt == policy.maxRetries)
  }

  // A balance is a success, a reply that ends the attempts with an error is a failure, whatever came before. A refused
  // check is followed by a question for the state of its chain, and an unhealthy state by a request for its alert.
  function Notes(setup: Setup, s: State, phase: Phase): seq<H.Event>
    requires PhaseOk(setup, phase)
  {
    match phase
    case Replied(result, attempt, reply) =>
      if reply.Balance? then [H.Success(ChainOf(result))]
      else if Refuses(setup.policy, attempt, reply) then [H.Failure(ChainOf(result))]
      else []
    case Refused(result, _) => [H.Query(ChainOf(result))]
    case Alerting(result, _) => [H.Alert(LastChain(result), H.AlertDue(s.health, LastChain(result)))]
    case _ => []
  }

  // The chain answered last.
  function LastChain(result: Result): Chain
    requires 0 < |result.answers| <= |ChainsFor(result.address.kind)|
  {
    ChainsFor(result.address.kind)[|result.answers| - 1]
  }

  function NotesOf(setup: Setup, s: State, actor: Actor): seq<H.Event>
    requires forall i :: 0 <= i < |s.workers| ==> PhaseOk(setup, s.workers[i])
    requires Enabled(setup, s, actor)
  {
    if actor.Worker? then Notes(setup, s, s.workers[actor.index]) else []
  }

  ghost function Log(setup: Setup, s: State, schedule: seq<(Actor, Input)>): seq<H.Event>
    requires Allowed(setup, s, schedule)
    decreases |schedule|
  {
    if schedule == [] then []
    else NotesOf(setup, s, schedule[0].0)
         + Log(setup, Apply(setup, s, schedule[0].0, schedule[0].1), schedule[1..])
  }

  lemma {:induction false} NotesAreReplayed(setup: Setup, s: State, actor: Actor, input: Input)
    requires WorkersOk(setup, s.workers) && Enabled(setup, s, actor)
    ensures var notes := NotesOf(setup, s, actor);
            var after := Apply(setup, s, actor, input).health;
            if notes == [] then after == s.health
            else |notes| == 1 && after == H.After(s.health, notes[0], setup.threshold)
                 && (notes[0].Alert? ==> notes[0].taken == H.AlertDue(s.health, notes[0].chain))
  {
    if actor.Worker? { PhaseIsReplayed(setup, s, s.workers[actor.index]); }
  }

  lemma {:induction false} PhaseIsReplayed(setup: Setup, s: State, phase: Phase)
    requires PhaseOk(setup, phase)
    ensures var notes := Notes(setup, s, phase);
            if notes == [] then HealthAfter(setup, s, phase) == s.health
            else |notes| == 1 && HealthAfter(setup, s, phase) == H.After(s.health, notes[0], setup.threshold)
                 && (notes[0].Alert? ==> notes[0].taken == H.AlertDue(s.health, notes[0].chain))
  {}

  // Every chain is judged by its own failures and successes.

  // The result asked for a pause when its check was refused on a chain that was then ill.
  ghost predicate PauseHasCause(start: H.Book, log: seq<H.Event>, threshold: nat, r: Result) {
    exists n, k :: CauseOfPause(start, log, threshold, r, n, k)
  }

  ghost predicate CauseOfPause(start: H.Book, log: seq<H.Event>, threshold: nat, r: Result, n: int, k: int) {
    && 0 <= k < |r.answers| && k < |ChainsFor(r.address.kind)| && !r.answers[k].Balance?
    && 0 <= n < |log| && log[n] == H.Query(ChainsFor(r.address.kind)[k])
    && H.IllAfter(start, log[..n], threshold, ChainsFor(r.address.kind)[k])
  }

  // The alert names an error of the result, and was handed out with the number of failures there were.
  ghost predicate AlertHasCause(start: H.Book, log: seq<H.Event>, r: Result, a: NodeAlert) {
    exists n, k :: CauseOfAlert(start, log, r, a, n, k)
  }

  ghost predicate CauseOfAlert(start: H.Book, log: seq<H.Event>, r: Result, a: NodeAlert, n: int, k: int) {
    && 0 <= k < |r.answers| && k < |ChainsFor(r.address.kind)| && !r.answers[k].Balance?
    && var error := AsProviderError(r.answers[k], ChainsFor(r.address.kind)[k], false);
    && a.chain == ChainsFor(r.address.kind)[k] && a.provider == error.provider && a.code == error.code
    && 0 <= n < |log| && log[n] == H.Alert(a.chain, true)
    && a.failures == H.FailuresAfter(start, log[..n], a.chain)
  }

  ghost predicate ResultHasCauses(start: H.Book, log: seq<H.Event>, threshold: nat, r: Result) {
    && (r.pause ==> PauseHasCause(start, log, threshold, r))
    && (forall i :: 0 <= i < |r.alerts| ==> AlertHasCause(start, log, r, r.alerts[i]))
  }

  ghost predicate CausesOk(start: H.Book, log: seq<H.Event>, threshold: nat, s: State) {
    && (forall i :: 0 <= i < |s.workers| && s.workers[i].Busy() ==>
          ResultHasCauses(start, log, threshold, s.workers[i].result))
    && (forall i :: 0 <= i < |s.buffer| ==> ResultHasCauses(start, log, threshold, s.buffer[i]))
    && (forall i :: 0 <= i < |s.collected| ==> ResultHasCauses(start, log, threshold, s.collected[i]))
  }

  lemma {:induction false} CausesStay(start: H.Book, log: seq<H.Event>, more: seq<H.Event>, threshold: nat, r: Result)
    requires ResultHasCauses(start, log, threshold, r)
    ensures ResultHasCauses(start, log + more, threshold, r)
  {
    var longer := log + more;
    if r.pause {
      var n, k :| CauseOfPause(start, log, threshold, r, n, k);
      assert longer[..n] == log[..n];
      assert CauseOfPause(start, longer, threshold, r, n, k);
    }
    forall i | 0 <= i < |r.alerts| ensures AlertHasCause(start, longer, r, r.alerts[i]) {
      var n, k :| CauseOfAlert(start, log, r, r.alerts[i], n, k);
      assert longer[..n] == log[..n];
      assert CauseOfAlert(start, longer, r, r.alerts[i], n, k);
    }
  }

  // One more answer leaves the causes in place.
  lemma {:induction false} AnswerKeepsCauses(start: H.Book, log: seq<H.Event>, threshold: nat, r: Result, next: Result)
    requires ResultHasCauses(start, log, threshold, r)
    requires next.address == r.address && r.answers <= next.answers
    requires (next.pause ==> r.pause) && next.alerts == r.alerts
    ensures ResultHasCauses(start, log, threshold, next)
  {
    if next.pause {
      var n, k :| CauseOfPause(start, log, threshold, r, n, k);
      assert CauseOfPause(start, log, threshold, next, n, k);
    }
    forall i | 0 <= i < |next.alerts| ensures AlertHasCause(start, log, next, next.alerts[i]) {
      var n, k :| CauseOfAlert(start, log, r, r.alerts[i], n, k);
      assert CauseOfAlert(start, log, next, next.alerts[i], n, k);
    }
  }

  lemma {:induction false} BookKnows(start: H.Book, log: seq<H.Event>, threshold: nat, book: H.Book, chain: Chain)
    requires H.Leaves(start, log, threshold, book)
    ensures H.At(book, chain).failures == H.FailuresAfter(start, log, chain)
    ensures H.At(book, chain).unhealthy <==> H.IllAfter(start, log, threshold, chain)
  {
    assert Looking(0);
    H.CounterIsTrailingRun(start, log, threshold, chain);
  }

  lemma {:induction false} RefusalHasCause(setup: Setup, start: H.Book, log: seq<H.Event>, s: State, phase: Phase,
                                           input: Input)
    requires H.Leaves(start, log, setup.threshold, s.health)
    requires phase.Refused? && PhaseOk(setup, phase) && WorkerEnabled(setup, s, phase)
    requires ResultHasCauses(start, log, setup.threshold, phase.result)
    ensures var next := Advance(setup, s, phase, input);
            next.Busy() && ResultHasCauses(start, log + Notes(setup, s, phase), setup.threshold, next.result)
  {
    var next, notes := Advance(setup, s, phase, input), Notes(setup, s, phase);
    var chain, answered := ChainOf(phase.result), WithAnswer(phase.result, phase.answer);
    CausesStay(start, log, notes, setup.threshold, phase.result);
    AnswerKeepsCauses(start, log + notes, setup.threshold, phase.result, answered);
    BookKnows(start, log, setup.threshold, s.health, chain);
    if H.At(s.health, chain).unhealthy {
      assert (log + notes)[..|log|] == log;
      assert CauseOfPause(start, log + notes, setup.threshold, next.result, |log|, |phase.result.answers|);
      forall i | 0 <= i < |next.result.alerts|
        ensures AlertHasCause(start, log + notes, next.result, next.result.alerts[i])
      {
        var n, k :| CauseOfAlert(start, log + notes, answered, answered.alerts[i], n, k);
        assert CauseOfAlert(start, log + notes, next.result, next.result.alerts[i], n, k);
      }
    }
  }

  lemma {:induction false} AlertingHasCause(setup: Setup, start: H.Book, log: seq<H.Event>, s: State, phase: Phase,
                                            input: Input)
    requires H.Leaves(start, log, setup.threshold, s.health)
    requires phase.Alerting? && PhaseOk(setup, phase) && WorkerEnabled(setup, s, phase) && Answers(phase)
    requires ResultHasCauses(start, log, setup.threshold, phase.result)
    ensures var next := Advance(setup, s, phase, input);
            next.Busy() && ResultHasCauses(start, log + Notes(setup, s, phase), setup.threshold, next.result)
  {
    var next, notes := Advance(setup, s, phase, input), Notes(setup, s, phase);
    var r, chain := phase.result, LastChain(phase.result);
    CausesStay(start, log, notes, setup.threshold, r);
    BookKnows(start, log, setup.threshold, s.health, chain);
    assert (log + notes)[..|log|] == log;
    if next.result.pause {
      var n, k :| CauseOfPause(start, log + notes, setup.threshold, r, n, k);
      assert CauseOfPause(start, log + notes, setup.threshold, next.result, n, k);
    }
    forall i | 0 <= i < |next.result.alerts|
      ensures AlertHasCause(start, log + notes, next.result, next.result.alerts[i])
    {
      if i < |r.alerts| {
        var n, k :| CauseOfAlert(start, log + notes, r, r.alerts[i], n, k);
        assert CauseOfAlert(start, log + notes, next.result, next.result.alerts[i], n, k);
      } else {
        assert CauseOfAlert(start, log + notes, next.result, next.result.alerts[i], |log|, |r.answers| - 1);
      }
    }
  }

  // A worker that asks for an alert does so for the answer it has just added.
  predicate Answers(phase: Phase) {
    phase.Alerting? ==> phase.result.answers != [] && phase.result.answers[|phase.result.answers| - 1] == phase.answer
  }

  ghost predicate AllAnswer(s: State) { forall i :: 0 <= i < |s.workers| ==> Answers(s.workers[i]) }

  lemma {:induction false} PhaseHasCauses(setup: Setup, start: H.Book, log: seq<H.Event>, s: State, phase: Phase,
                                          input: Input)
    requires H.Leaves(start, log, setup.threshold, s.health)
    requires PhaseOk(setup, phase) && WorkerEnabled(setup, s, phase) && Answers(phase)
    requires phase.Busy() ==> ResultHasCauses(start, log, setup.threshold, phase.result)
    ensures var next := Advance(setup, s, phase, input);
            && Answers(next)
            && (next.Busy() ==>
                  ResultHasCauses(start, log + Notes(setup, s, phase), setup.threshold, next.result))
  {
    var next, notes := Advance(setup, s, phase, input), Notes(setup, s, phase);
    if phase.Refused? {
      RefusalHasCause(setup, start, log, s, phase, input);
    } else if phase.Alerting? {
      AlertingHasCause(setup, start, log, s, phase, input);
    } else if phase.Busy() && next.Busy() {
      CausesStay(start, log, notes, setup.threshold, phase.result);
      AnswerKeepsCauses(start, log + notes, setup.threshold, phase.result, next.result);
    }
  }

  lemma {:induction false} StepKeepsCauses(setup: Setup, start: H.Book, log: seq<H.Event>, s: State, actor: Actor,
                                           input: Input)
    requires H.Leaves(start, log, setup.threshold, s.health)
    requires WorkersOk(setup, s.workers) && Enabled(setup, s, actor)
    requires CausesOk(start, log, setup.threshold, s) && AllAnswer(s)
    ensures CausesOk(start, log + NotesOf(setup, s, actor), setup.threshold, Apply(setup, s, actor, input))
    ensures AllAnswer(Apply(setup, s, actor, input))
  {
    var after, notes := Apply(setup, s, actor, input), NotesOf(setup, s, actor);
    if actor.Worker? {
      PhaseHasCauses(setup, start, log, s, s.workers[actor.index], input);
    }
    forall i | 0 <= i < |after.workers| && after.workers[i].Busy()
      ensures ResultHasCauses(start, log + notes, setup.threshold, after.workers[i].result)
    {
      if after.workers[i] == s.workers[i] {
        CausesStay(start, log, notes, setup.threshold, s.workers[i].result);
      }
    }
    forall i | 0 <= i < |after.buffer|
      ensures ResultHasCauses(start, log + notes, setup.threshold, after.buffer[i])
    {
      var r := after.buffer[i];
      CausesStay(start, log, notes, setup.threshold, r);
    }
    forall i | 0 <= i < |after.collected|
      ensures ResultHasCauses(start, log + notes, setup.threshold, after.collected[i])
    {
      CausesStay(start, log, notes, setup.threshold, after.collected[i]);
    }
  }

  // The log accounts for the state; folded.
  ghost predicate Accounts(setup: Setup, start: H.Book, log: seq<H.Event>, s: State) {
    forall depth {:trigger Looking(depth)} :: Looking(depth) && depth == 1 ==>
      && H.Leaves(start, log, setup.threshold, s.health) && CausesOk(start, log, setup.threshold, s)
      && WorkersOk(setup, s.workers) && ResultsOk(s.buffer) && ResultsOk(s.collected) && AllAnswer(s)
  }

  lemma {:induction false} StepIsLogged(setup: Setup, start: H.Book, log: seq<H.Event>, s: State, actor: Actor,
                                        input: Input)
    requires Accounts(setup, start, log, s)
    requires (forall i :: 0 <= i < |s.workers| ==> PhaseOk(setup, s.workers[i])) && Enabled(setup, s, actor)
    ensures Accounts(setup, start, log + NotesOf(setup, s, actor), Apply(setup, s, actor, input))
  {
    assert Looking(1);
    var notes := NotesOf(setup, s, actor);
    NotesAreReplayed(setup, s, actor, input);
    if notes == [] {
      assert log + notes == log;
    } else {
      H.HistoryExtends(start, log, notes[0], setup.threshold, s.health);
      assert log + notes == log + [notes[0]];
    }
    WorkersKept(setup, s, actor, input);
    StepKeepsCauses(setup, start, log, s, actor, input);
  }

  // Whatever the interleaving, the health book is the replay of the log, and every pause and alert has its cause in it.
  lemma {:induction false} EveryScheduleIsLogged(setup: Setup, start: H.Book, log: seq<H.Event>, s: State,
                                                 schedule: seq<(Actor, Input)>)
    requires Accounts(setup, start, log, s) && Allowed(setup, s, schedule)
    ensures Accounts(setup, start, log + Log(setup, s, schedule), After(setup, s, schedule))
    decreases |schedule|
  {
    if schedule == [] {
      assert log + [] == log;
    } else {
      var (actor, input) := schedule[0];
      var notes, next := NotesOf(setup, s, actor), Apply(setup, s, actor, input);
      StepIsLogged(setup, start, log, s, actor, input);
      EveryScheduleIsLogged(setup, start, log + notes, next, schedule[1..]);
      assert log + notes + Log(setup, next, schedule[1..]) == log + Log(setup, s, schedule);
    }
  }

  lemma {:induction false} StartIsLogged(setup: Setup, addresses: seq<Address>, width: nat, health: H.Book)
    ensures Accounts(setup, health, [], Start(addresses, width, health))
  {
    assert H.Leaves(health, [], setup.threshold, health);
  }
}
