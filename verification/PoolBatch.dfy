// One batch, from its addresses to its results.
module PoolBatch {
  import opened Domain
  import opened Results
  import opened Pool
  import opened PoolInvariant
  import opened PoolRuns
  import opened PoolHealth
  import opened PoolTallies
  import opened PoolAnswers
  import H = Health

  // What the health book has been told: it is the replay of a log in which every pause and every alert has its cause,
  // and which has one success for each balance and one alert taken for each alert of the results; folded.
  ghost predicate Told(setup: Setup, health: H.Book, log: seq<H.Event>, results: seq<Result>, healthAfter: H.Book) {
    forall depth {:trigger Looking(depth)} :: Looking(depth) && depth == 3 ==>
      ToldOk(setup, health, log, results, healthAfter)
  }

  ghost predicate ToldOk(setup: Setup, health: H.Book, log: seq<H.Event>, results: seq<Result>, healthAfter: H.Book) {
    && H.Leaves(health, log, setup.threshold, healthAfter)
    && (forall i :: 0 <= i < |results| ==> ResultHasCauses(health, log, setup.threshold, results[i]))
    && (forall chain :: multiset(log)[H.Success(chain)] == Sum(Balances(chain), results))
    && (forall chain :: multiset(log)[H.Alert(chain, true)] == Sum(Alerts(chain), results))
  }

  lemma {:induction false} DoneIsTold(setup: Setup, addresses: seq<Address>, width: nat, health: H.Book,
                                      schedule: seq<(Actor, Input)>)
    requires ValidSetup(setup) && width >= 1
    requires Allowed(setup, Start(addresses, width, health), schedule)
    requires After(setup, Start(addresses, width, health), schedule).done
    ensures var end := After(setup, Start(addresses, width, health), schedule);
            Told(setup, health, Log(setup, Start(addresses, width, health), schedule), end.collected, end.health)
  {
    var start := Start(addresses, width, health);
    var log := Log(setup, start, schedule);
    StartIsLogged(setup, addresses, width, health);
    EveryScheduleIsLogged(setup, health, [], start, schedule);
    assert [] + log == log;
    AccountsMean(setup, health, log, After(setup, start, schedule));
    forall chain
      ensures multiset(log)[H.Success(chain)] == Sum(Balances(chain), After(setup, start, schedule).collected)
      ensures multiset(log)[H.Alert(chain, true)] == Sum(Alerts(chain), After(setup, start, schedule).collected)
    {
      DoneCounts(setup, addresses, width, health, schedule, chain);
    }
  }

  lemma {:induction false} AccountsMean(setup: Setup, start: H.Book, log: seq<H.Event>, s: State)
    requires Accounts(setup, start, log, s)
    ensures H.Leaves(start, log, setup.threshold, s.health)
    ensures forall i :: 0 <= i < |s.collected| ==> ResultHasCauses(start, log, setup.threshold, s.collected[i])
  {
    assert Looking(1);
  }

  // Whatever a batch can end with, the health book has been told.
  lemma {:induction false} OutcomeIsTold(setup: Setup, addresses: seq<Address>, width: nat, health: H.Book,
                                         results: seq<Result>, healthAfter: H.Book)
    returns (log: seq<H.Event>)
    requires ValidSetup(setup) && width >= 1 && Outcome(setup, addresses, width, health, results, healthAfter)
    ensures Told(setup, health, log, results, healthAfter)
  {
    var start := Start(addresses, width, health);
    var schedule :| Allowed(setup, start, schedule) && EndsWith(After(setup, start, schedule), results, healthAfter);
    DoneIsTold(setup, addresses, width, health, schedule);
    log := Log(setup, start, schedule);
  }

  lemma {:induction false} OpenTold(setup: Setup, health: H.Book, log: seq<H.Event>, results: seq<Result>,
                                    healthAfter: H.Book)
    requires Told(setup, health, log, results, healthAfter)
    ensures ToldOk(setup, health, log, results, healthAfter)
  {
    assert Looking(3);
  }

  // Each answer is what the replies of its provider come to; folded.
  ghost predicate AllFit(setup: Setup, oracle: Oracle, cancelled: bool, results: seq<Result>) {
    forall depth {:trigger Looking(depth)} :: Looking(depth) && depth == 4 ==>
      forall i :: 0 <= i < |results| ==> AnswersFit(setup, oracle, cancelled, results[i])
  }

  // The pool has come from its start to this state, fed by the oracle; folded.
  ghost predicate Reached(setup: Setup, addresses: seq<Address>, width: nat, health: H.Book, oracle: Oracle,
                          schedule: seq<(Actor, Input)>, s: State)
  {
    forall depth {:trigger Looking(depth)} :: Looking(depth) && depth == 2 ==>
      && Inv(setup, addresses, H.Unhealthy(health), s) && StateFits(setup, oracle, s)
      && Allowed(setup, Start(addresses, width, health), schedule)
      && After(setup, Start(addresses, width, health), schedule) == s
  }

  lemma {:induction false} StartIsReached(setup: Setup, addresses: seq<Address>, width: nat, health: H.Book,
                                          oracle: Oracle)
    requires ValidSetup(setup) && width >= 1
    ensures Reached(setup, addresses, width, health, oracle, [], Start(addresses, width, health))
  {
    StartHolds(setup, addresses, width, health);
    StartFits(setup, oracle, addresses, width, health);
  }

  lemma {:induction false} SomeoneMoves(setup: Setup, addresses: seq<Address>, width: nat, health: H.Book,
                                        oracle: Oracle, schedule: seq<(Actor, Input)>, s: State)
    returns (actor: Actor)
    requires Reached(setup, addresses, width, health, oracle, schedule, s) && !s.done
    ensures forall i :: 0 <= i < |s.workers| ==> PhaseOk(setup, s.workers[i])
    ensures Enabled(setup, s, actor) && !actor.Canceller?
    ensures actor in {Feeder, Collector} + set i | 0 <= i < |s.workers| :: Worker(i)
  {
    assert Looking(2);
    actor := NeverDeadlocks(setup, addresses, H.Unhealthy(health), s);
  }

  lemma {:induction false} StepIsReached(setup: Setup, addresses: seq<Address>, width: nat, health: H.Book,
                                         oracle: Oracle, schedule: seq<(Actor, Input)>, s: State, actor: Actor,
                                         input: Input)
    requires Reached(setup, addresses, width, health, oracle, schedule, s)
    requires forall i :: 0 <= i < |s.workers| ==> PhaseOk(setup, s.workers[i])
    requires Enabled(setup, s, actor) && InputFits(setup, s, actor, input, oracle)
    ensures Reached(setup, addresses, width, health, oracle, schedule + [(actor, input)],
                    Apply(setup, s, actor, input))
    ensures Measure(setup, Apply(setup, s, actor, input)) < Measure(setup, s)
  {
    assert Looking(2);
    StepKeepsInv(setup, addresses, H.Unhealthy(health), s, actor, input);
    StepIsLighter(setup, s, actor, input);
    StepKeepsFit(setup, oracle, s, actor, input);
    ScheduleExtends(setup, Start(addresses, width, health), schedule, actor, input);
  }

  lemma {:induction false} EndIsReached(setup: Setup, addresses: seq<Address>, width: nat, health: H.Book,
                                        oracle: Oracle, schedule: seq<(Actor, Input)>, s: State)
    returns (log: seq<H.Event>)
    requires ValidSetup(setup) && width >= 1
    requires Reached(setup, addresses, width, health, oracle, schedule, s) && s.done
    ensures Outcome(setup, addresses, width, health, s.collected, s.health)
    ensures BatchDone(addresses, H.Unhealthy(health), s.collected, H.Unhealthy(s.health))
    ensures AllFit(setup, oracle, s.cancelled, s.collected)
    ensures Told(setup, health, log, s.collected, s.health)
  {
    assert Looking(2);
    DoneMeansComplete(setup, addresses, H.Unhealthy(health), s);
    DoneIsTold(setup, addresses, width, health, schedule);
    log := Log(setup, Start(addresses, width, health), schedule);
  }

  // One batch under an arbitrary scheduler. The oracle gives the providers' replies.
  method ProcessBatch(setup: Setup, addresses: seq<Address>, width: nat, health: H.Book, oracle: Oracle,
                      cancellable: bool)
    returns (results: seq<Result>, healthAfter: H.Book, ghost log: seq<H.Event>, ghost cancelled: bool)
    requires ValidSetup(setup) && width >= 1
    ensures Outcome(setup, addresses, width, health, results, healthAfter)
    ensures BatchDone(addresses, H.Unhealthy(health), results, H.Unhealthy(healthAfter))
    ensures AllFit(setup, oracle, cancelled, results) && (cancelled ==> cancellable)
    ensures Told(setup, health, log, results, healthAfter)
  {
    ghost var schedule := [];
    var s := Start(addresses, width, health);
    StartIsReached(setup, addresses, width, health, oracle);
    while !s.done
      invariant Reached(setup, addresses, width, health, oracle, schedule, s) && (s.cancelled ==> cancellable)
      decreases Measure(setup, s)
    {
      ghost var ready := SomeoneMoves(setup, addresses, width, health, oracle, schedule, s);
      var actors: set<Actor> := {Feeder, Collector} + set i | 0 <= i < |s.workers| :: Worker(i);
      if cancellable {
        actors := actors + {Canceller};
      }
      assert ready in actors;
      var actor :| actor in actors && Enabled(setup, s, actor);
      var takeDone: bool := *;
      var input := Input(Unconfigured(), takeDone);
      if actor.Worker? && s.workers[actor.index].Calling? {
        var phase := s.workers[actor.index];
        input := Input(oracle(phase.result.address, ChainOf(phase.result), phase.attempt), takeDone);
      }
      StepIsReached(setup, addresses, width, health, oracle, schedule, s, actor, input);
      schedule := schedule + [(actor, input)];
      s := Apply(setup, s, actor, input);
    }
    log := EndIsReached(setup, addresses, width, health, oracle, schedule, s);
    results, healthAfter, cancelled := s.collected, s.health, s.cancelled;
  }
}
