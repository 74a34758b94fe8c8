// Nothing said to the health book is lost: successes and alerts of the log are those of the results.
module PoolTallies {
  import opened Domain
  import opened Results
  import opened Pool
  import opened PoolInvariant
  import opened PoolRuns
  import opened PoolHealth
  import H = Health

  // A weight of results, summed over all that the pool holds.

  function PhaseWeight(weight: Result -> nat, phase: Phase): nat {
    if phase.Busy() then weight(phase.result) else 0
  }

  function OnPhase(weight: Result -> nat): Phase -> nat { (phase: Phase) => PhaseWeight(weight, phase) }

  function Carried(weight: Result -> nat, s: State): nat {
    Sum(OnPhase(weight), s.workers) + Sum(weight, s.buffer) + Sum(weight, s.collected)
  }

  lemma {:induction false} SumShrinks(weight: Result -> nat, results: seq<Result>)
    requires results != []
    ensures Sum(weight, results) == weight(results[0]) + Sum(weight, results[1..])
  {
    var n := |results| - 1;
    if n > 0 {
      SumShrinks(weight, results[..n]);
      assert results[..n][1..] == results[1..][..n - 1];
    }
  }

  lemma {:induction false} SumGrows(weight: Result -> nat, results: seq<Result>, r: Result)
    ensures Sum(weight, results + [r]) == Sum(weight, results) + weight(r)
  {
    assert (results + [r])[..|results|] == results;
  }

  // What one step adds to a result.
  function Gain(weight: Result -> nat, phase: Phase, next: Phase): int {
    if phase.Sending? then 0 else PhaseWeight(weight, next) - PhaseWeight(weight, phase)
  }

  lemma {:induction false} StepCarries(weight: Result -> nat, setup: Setup, s: State, actor: Actor, input: Input)
    requires (forall i :: 0 <= i < |s.workers| ==> PhaseOk(setup, s.workers[i])) && Enabled(setup, s, actor)
    ensures Carried(weight, Apply(setup, s, actor, input)) == Carried(weight, s)
              + if actor.Worker?
                then Gain(weight, s.workers[actor.index], Advance(setup, s, s.workers[actor.index], input)) else 0
  {
    match actor {
      case Worker(i) => MoveCarries(weight, s, i, Advance(setup, s, s.workers[i], input));
      case Collector => CollectorCarries(weight, s);
      case _ =>
    }
  }

  lemma {:induction false} MoveCarries(weight: Result -> nat, s: State, i: nat, next: Phase)
    requires i < |s.workers| && (s.workers[i].Sending? ==> next.Waiting?)
    ensures Carried(weight, Moved(s, i, next)) == Carried(weight, s) + Gain(weight, s.workers[i], next)
  {
    SumMoves(OnPhase(weight), s.workers, i, next);
    if s.workers[i].Sending? { SumGrows(weight, s.buffer, s.workers[i].result); }
  }

  lemma {:induction false} CollectorCarries(weight: Result -> nat, s: State)
    ensures s.buffer != [] ==>
              Carried(weight, s) ==
              Carried(weight, s.(collected := s.collected + [s.buffer[0]], buffer := s.buffer[1..]))
  {
    if s.buffer != [] {
      SumShrinks(weight, s.buffer);
      SumGrows(weight, s.collected, s.buffer[0]);
    }
  }

  // The balances reported for a chain, and the alerts about it.

  function BalancesFor(kind: AddressType, answers: seq<Reply>, chain: Chain): nat {
    if answers == [] then 0 else
      var n := |answers| - 1;
      BalancesFor(kind, answers[..n], chain)
      + if n < |ChainsFor(kind)| && ChainsFor(kind)[n] == chain && answers[n].Balance? then 1 else 0
  }

  function Balances(chain: Chain): Result -> nat {
    (r: Result) => BalancesFor(r.address.kind, r.answers, chain)
  }

  function AlertsFor(alerts: seq<NodeAlert>, chain: Chain): nat {
    if alerts == [] then 0 else
      AlertsFor(alerts[..|alerts| - 1], chain) + if alerts[|alerts| - 1].chain == chain then 1 else 0
  }

  function Alerts(chain: Chain): Result -> nat { (r: Result) => AlertsFor(r.alerts, chain) }

  lemma {:induction false} BalanceIsCounted(r: Result, answer: Reply, chain: Chain)
    requires |r.answers| < |ChainsFor(r.address.kind)|
    ensures Balances(chain)(WithAnswer(r, answer)) == Balances(chain)(r)
              + if ChainOf(r) == chain && answer.Balance? then 1 else 0
  {
    assert (r.answers + [answer])[..|r.answers|] == r.answers;
  }

  lemma {:induction false} AlertIsCounted(alerts: seq<NodeAlert>, alert: NodeAlert, chain: Chain)
    ensures AlertsFor(alerts + [alert], chain) == AlertsFor(alerts, chain) + if alert.chain == chain then 1 else 0
  {
    assert (alerts + [alert])[..|alerts|] == alerts;
  }

  lemma {:induction false} BalancesGain(setup: Setup, s: State, phase: Phase, input: Input, chain: Chain)
    requires PhaseOk(setup, phase) && WorkerEnabled(setup, s, phase)
    ensures Gain(Balances(chain), phase, Advance(setup, s, phase, input))
         == if Notes(setup, s, phase) == [H.Success(chain)] then 1 else 0
  {
    match phase {
      case Next(r) =>
        if |r.answers| < |ChainsFor(r.address.kind)| { BalanceIsCounted(r, Unconfigured(), chain); }
      case Replied(r, _, reply) => BalanceIsCounted(r, reply, chain);
      case Refused(r, answer) => BalanceIsCounted(r, answer, chain);
      case _ =>
    }
  }

  lemma {:induction false} AlertsGain(setup: Setup, s: State, phase: Phase, input: Input, chain: Chain)
    requires PhaseOk(setup, phase) && WorkerEnabled(setup, s, phase)
    ensures Gain(Alerts(chain), phase, Advance(setup, s, phase, input))
         == if Notes(setup, s, phase) == [H.Alert(chain, true)] then 1 else 0
  {
    var next := Advance(setup, s, phase, input);
    if phase.Alerting? {
      if next.result.alerts != phase.result.alerts {
        AlertIsCounted(phase.result.alerts, next.result.alerts[|phase.result.alerts|], chain);
      }
    } else {
      OthersAlertNone(setup, s, phase, input);
    }
  }

  lemma {:induction false} OthersAlertNone(setup: Setup, s: State, phase: Phase, input: Input)
    requires PhaseOk(setup, phase) && WorkerEnabled(setup, s, phase) && !phase.Alerting?
    ensures var next := Advance(setup, s, phase, input);
            next.Busy() ==> next.result.alerts == if phase.Busy() then phase.result.alerts else []
    ensures phase.Busy() && !phase.Sending? ==> Advance(setup, s, phase, input).Busy()
  {}

  // The log of a schedule counts the balances and the alerts that its steps add.

  lemma {:induction false} LogCounts(setup: Setup, s: State, schedule: seq<(Actor, Input)>, chain: Chain)
    requires Allowed(setup, s, schedule)
    ensures var end := After(setup, s, schedule);
            var log := multiset(Log(setup, s, schedule));
            && Carried(Balances(chain), end) == Carried(Balances(chain), s) + log[H.Success(chain)]
            && Carried(Alerts(chain), end) == Carried(Alerts(chain), s) + log[H.Alert(chain, true)]
    decreases |schedule|
  {
    if schedule != [] {
      var (actor, input) := schedule[0];
      var next := Apply(setup, s, actor, input);
      LogCounts(setup, next, schedule[1..], chain);
      StepCounts(setup, s, actor, input, chain);
      assert multiset(Log(setup, s, schedule))
          == multiset(NotesOf(setup, s, actor)) + multiset(Log(setup, next, schedule[1..]));
    }
  }

  lemma {:induction false} StepCounts(setup: Setup, s: State, actor: Actor, input: Input, chain: Chain)
    requires (forall i :: 0 <= i < |s.workers| ==> PhaseOk(setup, s.workers[i])) && Enabled(setup, s, actor)
    ensures var next := Apply(setup, s, actor, input);
            var notes := multiset(NotesOf(setup, s, actor));
            && Carried(Balances(chain), next) == Carried(Balances(chain), s) + notes[H.Success(chain)]
            && Carried(Alerts(chain), next) == Carried(Alerts(chain), s) + notes[H.Alert(chain, true)]
  {
    StepCarries(Balances(chain), setup, s, actor, input);
    StepCarries(Alerts(chain), setup, s, actor, input);
    if actor.Worker? {
      BalancesGain(setup, s, s.workers[actor.index], input, chain);
      AlertsGain(setup, s, s.workers[actor.index], input, chain);
      var notes := NotesOf(setup, s, actor);
      assert |notes| <= 1;
      assert notes != [] ==> notes == [notes[0]];
    }
  }

  // When a batch is done, all that the log counts is in its results.
  lemma {:induction false} DoneCounts(setup: Setup, addresses: seq<Address>, width: nat, health: H.Book,
                                      schedule: seq<(Actor, Input)>, chain: Chain)
    requires ValidSetup(setup) && width >= 1
    requires Allowed(setup, Start(addresses, width, health), schedule)
    requires After(setup, Start(addresses, width, health), schedule).done
    ensures var start := Start(addresses, width, health);
            var log := multiset(Log(setup, start, schedule));
            && log[H.Success(chain)] == Sum(Balances(chain), After(setup, start, schedule).collected)
            && log[H.Alert(chain, true)] == Sum(Alerts(chain), After(setup, start, schedule).collected)
  {
    var start := Start(addresses, width, health);
    var end := After(setup, start, schedule);
    StartHolds(setup, addresses, width, health);
    EveryScheduleIsSafe(setup, addresses, H.Unhealthy(health), start, schedule);
    LogCounts(setup, start, schedule, chain);
    SumOfZeros(OnPhase(Balances(chain)), start.workers);
    SumOfZeros(OnPhase(Alerts(chain)), start.workers);
    SumOfZeros(OnPhase(Balances(chain)), end.workers);
    SumOfZeros(OnPhase(Alerts(chain)), end.workers);
  }
}
