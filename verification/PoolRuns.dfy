// Whole runs of the worker pool: no deadlock, termination, and what a finished batch hands back.
module PoolRuns {
  import opened Domain
  import opened Results
  import opened Attempts
  import opened Pool
  import opened PoolInvariant
  import H = Health

  // Progress.

  lemma {:induction false} NothingLost(setup: Setup, addresses: seq<Address>, s: State)
    requires Conserved(addresses, s)
    ensures multiset(addresses) == multiset(s.todo) + Held(s.workers) + Owners(s.buffer) + Owners(s.collected)
    ensures s.capacity == |s.todo| + |Held(s.workers)| + |s.buffer| + |s.collected|
  {
    forall a ensures multiset(addresses)[a]
        == (multiset(s.todo) + Held(s.workers) + Owners(s.buffer) + Owners(s.collected))[a] {
      assert Copies(addresses, s, a);
    }
  }

  // A full semaphore has a call in flight, whose return is an enabled step.
  lemma {:induction false} BusyWorkerMoves(setup: Setup, addresses: seq<Address>, sick: set<Chain>, s: State, i: nat)
    returns (actor: Actor)
    requires Inv(setup, addresses, sick, s)
    requires i < |s.workers| && s.workers[i].Busy()
    ensures actor.Worker? && Enabled(setup, s, actor)
  {
    actor := Worker(i);
    match s.workers[i] {
      case Queued(result, _) =>
        var chain := ChainOf(result);
        if !HasRoom(setup, s, chain) {
          SumHasWitness(InCall(chain), s.workers);
          var j :| 0 <= j < |s.workers| && InCall(chain)(s.workers[j]) > 0;
          actor := Worker(j);
        }
      case Sending(result) =>
        NothingLost(setup, addresses, s);
        HeldContains(s.workers, i);
      case _ =>
    }
  }

  lemma {:induction false} NeverDeadlocks(setup: Setup, addresses: seq<Address>, sick: set<Chain>, s: State)
    returns (actor: Actor)
    requires Inv(setup, addresses, sick, s) && !s.done
    ensures Enabled(setup, s, actor) && !actor.Canceller?
  {
    if i :| 0 <= i < |s.workers| && s.workers[i].Busy() {
      actor := BusyWorkerMoves(setup, addresses, sick, s, i);
    } else if s.buffer != [] || s.resultsClosed {
      actor := Collector;
    } else if s.todo != [] {
      actor := Worker(0);
    } else if i :| 0 <= i < |s.workers| && s.workers[i].Waiting? && s.jobsClosed {
      actor := Worker(i);
    } else {
      actor := Feeder;
    }
  }

  // A closed channel is never sent on: no worker holds a result and the feeder has nothing left.
  lemma {:induction false} NoSendAfterClose(setup: Setup, addresses: seq<Address>, sick: set<Chain>, s: State, i: nat)
    requires Inv(setup, addresses, sick, s) && i < |s.workers|
    ensures s.resultsClosed ==> !s.workers[i].Sending?
    ensures s.jobsClosed ==> s.todo == []
  {}

  // Termination: a weight that every step lowers.

  function ChainCost(policy: Policy): nat { 4 * policy.maxRetries + 7 }

  function Remaining(result: Result): nat {
    var chains := |ChainsFor(result.address.kind)|;
    if |result.answers| <= chains then chains - |result.answers| else 0
  }

  function Weigh(policy: Policy, phase: Phase): nat {
    match phase
    case Waiting => 1
    case Exited => 0
    case Sending(_) => 3
    case Next(result) => 4 + Remaining(result) * ChainCost(policy)
    case Alerting(result, _) => 5 + Remaining(result) * ChainCost(policy)
    case _ =>
      var rest := if Remaining(phase.result) > 0 then Remaining(phase.result) - 1 else 0;
      4 + rest * ChainCost(policy) + Inside(policy, phase)
  }

  // Steps left within the check of one chain.
  function Inside(policy: Policy, phase: Phase): nat {
    match phase
    case Queued(_, attempt) => 4 * Left(policy, attempt) + 6
    case Calling(_, attempt) => 4 * Left(policy, attempt) + 5
    case Replied(_, attempt, _) => 4 * Left(policy, attempt) + 4
    case Sleeping(_, attempt) => 4 * Left(policy, attempt) + 3
    case _ => 2
  }

  function Left(policy: Policy, attempt: nat): nat {
    if attempt <= policy.maxRetries then policy.maxRetries - attempt else 0
  }

  function Weight(policy: Policy): Phase -> nat {
    (phase: Phase) => Weigh(policy, phase)
  }

  // An address still with the feeder costs at least a full check on three chains.
  function Measure(setup: Setup, s: State): nat {
    |s.todo| * (4 + 3 * ChainCost(setup.policy)) + Sum(Weight(setup.policy), s.workers) + |s.buffer|
    + (if s.jobsClosed then 0 else 1) + (if s.resultsClosed then 0 else 1)
    + (if s.done then 0 else 1) + (if s.cancelled then 0 else 1)
  }

  lemma {:induction false} AdvanceIsLighter(setup: Setup, s: State, phase: Phase, input: Input)
    requires PhaseOk(setup, phase) && WorkerEnabled(setup, s, phase)
    ensures var next := Advance(setup, s, phase, input);
            if phase.Waiting? && s.todo != []
            then Weigh(setup.policy, next) <= 4 + 3 * ChainCost(setup.policy)
            else Weigh(setup.policy, next) + (if phase.Sending? then 1 else 0) < Weigh(setup.policy, phase)
  {
    if phase.Next? || phase.Refused? || phase.Replied? {
      AnswerIsLighter(setup, s, phase, input);
    }
  }

  // The phases that may settle a chain, which takes its share off the weight.
  lemma {:induction false} AnswerIsLighter(setup: Setup, s: State, phase: Phase, input: Input)
    requires PhaseOk(setup, phase) && WorkerEnabled(setup, s, phase)
    requires phase.Next? || phase.Refused? || phase.Replied?
    ensures Weigh(setup.policy, Advance(setup, s, phase, input)) < Weigh(setup.policy, phase)
  {
    var n, cost := Remaining(phase.result), ChainCost(setup.policy);
    if n > 0 {
      assert n * cost == (n - 1) * cost + cost;
    }
  }

  lemma {:induction false} MoveIsLighter(setup: Setup, s: State, i: nat, next: Phase)
    requires i < |s.workers|
    requires var phase := s.workers[i];
             if phase.Waiting? && s.todo != []
             then Weigh(setup.policy, next) <= 4 + 3 * ChainCost(setup.policy)
             else Weigh(setup.policy, next) + (if phase.Sending? then 1 else 0) < Weigh(setup.policy, phase)
    ensures Measure(setup, Moved(s, i, next)) < Measure(setup, s)
  {
    SumMoves(Weight(setup.policy), s.workers, i, next);
    if s.workers[i].Waiting? && s.todo != [] {
      var unit := 4 + 3 * ChainCost(setup.policy);
      assert |s.todo| * unit == (|s.todo| - 1) * unit + unit;
    }
  }

  lemma {:induction false} StepIsLighter(setup: Setup, s: State, actor: Actor, input: Input)
    requires WorkersOk(setup, s.workers) && Enabled(setup, s, actor)
    ensures Measure(setup, Apply(setup, s, actor, input)) < Measure(setup, s)
  {
    if actor.Worker? {
      AdvanceIsLighter(setup, s, s.workers[actor.index], input);
      MoveIsLighter(setup, s, actor.index, Advance(setup, s, s.workers[actor.index], input));
    }
  }

  // Schedules.

  ghost predicate Allowed(setup: Setup, s: State, schedule: seq<(Actor, Input)>)
    decreases |schedule|
  {
    schedule == [] ||
    (&& (forall i :: 0 <= i < |s.workers| ==> PhaseOk(setup, s.workers[i]))
     && Enabled(setup, s, schedule[0].0)
     && Allowed(setup, Apply(setup, s, schedule[0].0, schedule[0].1), schedule[1..]))
  }

  ghost function After(setup: Setup, s: State, schedule: seq<(Actor, Input)>): State
    requires Allowed(setup, s, schedule)
    decreases |schedule|
  {
    if schedule == [] then s
    else After(setup, Apply(setup, s, schedule[0].0, schedule[0].1), schedule[1..])
  }

  // Whatever the interleaving, the invariant holds and the number of steps is bounded in advance.
  lemma {:induction false} EveryScheduleIsSafe(setup: Setup, addresses: seq<Address>, sick: set<Chain>, s: State,
                                               schedule: seq<(Actor, Input)>)
    requires Inv(setup, addresses, sick, s) && Allowed(setup, s, schedule)
    ensures Inv(setup, addresses, sick, After(setup, s, schedule))
    ensures |schedule| + Measure(setup, After(setup, s, schedule)) <= Measure(setup, s)
    decreases |schedule|
  {
    if schedule != [] {
      var (actor, input) := schedule[0];
      StepKeepsInv(setup, addresses, sick, s, actor, input);
      StepIsLighter(setup, s, actor, input);
      EveryScheduleIsSafe(setup, addresses, sick, Apply(setup, s, actor, input), schedule[1..]);
    }
  }

  // What the scanner may rely on when a batch is over.
  ghost predicate BatchDone(addresses: seq<Address>, sickBefore: set<Chain>, results: seq<Result>,
                            sickAfter: set<Chain>)
  {
    && Owners(results) == multiset(addresses)
    && ResultsOk(results)
    && ((forall r :: r in results ==> !r.pause) ==> sickAfter <= sickBefore)
  }

  lemma {:induction false} DoneMeansComplete(setup: Setup, addresses: seq<Address>, sick: set<Chain>, s: State)
    requires Inv(setup, addresses, sick, s) && s.done
    ensures BatchDone(addresses, sick, s.collected, H.Unhealthy(s.health))
    ensures forall chain :: chain in setup.sizes ==> Used(s.slots, chain) == 0
  {
    NothingLost(setup, addresses, s);
    NothingHeld(s.workers);
    forall chain | chain in setup.sizes ensures Used(s.slots, chain) == 0 {
      SumOfZeros(InCall(chain), s.workers);
    }
    if forall r :: r in s.collected ==> !r.pause {
      forall chain | chain in H.Unhealthy(s.health) ensures chain in sick {
        assert !PauseRequested(s) && !AboutToAsk(s, chain);
      }
    }
  }

  // Nothing but a cancellation could happen next.
  ghost predicate Stuck(setup: Setup, s: State) {
    (forall i :: 0 <= i < |s.workers| ==> PhaseOk(setup, s.workers[i])) ==>
      forall actor: Actor :: !actor.Canceller? ==> !Enabled(setup, s, actor)
  }

  // Every maximal schedule ends with the batch done, every address answered once and every slot free.
  lemma {:induction false} EveryMaximalScheduleCompletes(setup: Setup, addresses: seq<Address>, width: nat,
                                                         health: H.Book,
                                      schedule: seq<(Actor, Input)>)
    requires ValidSetup(setup) && width >= 1
    requires Allowed(setup, Start(addresses, width, health), schedule)
    requires Stuck(setup, After(setup, Start(addresses, width, health), schedule))
    ensures var end := After(setup, Start(addresses, width, health), schedule);
            && end.done
            && BatchDone(addresses, H.Unhealthy(health), end.collected, H.Unhealthy(end.health))
            && (forall chain :: chain in setup.sizes ==> Used(end.slots, chain) == 0)
  {
    var start := Start(addresses, width, health);
    StartHolds(setup, addresses, width, health);
    EveryScheduleIsSafe(setup, addresses, H.Unhealthy(health), start, schedule);
    var end := After(setup, start, schedule);
    if !end.done {
      var actor := NeverDeadlocks(setup, addresses, H.Unhealthy(health), end);
    }
    DoneMeansComplete(setup, addresses, H.Unhealthy(health), end);
  }

  // In every reachable state at most size calls are in flight on a limited chain.
  lemma {:induction false} CallsStayWithinSemaphore(setup: Setup, addresses: seq<Address>, width: nat, health: H.Book,
                                 schedule: seq<(Actor, Input)>, chain: Chain)
    requires ValidSetup(setup) && width >= 1 && chain in setup.sizes
    requires Allowed(setup, Start(addresses, width, health), schedule)
    ensures Sum(InCall(chain), After(setup, Start(addresses, width, health), schedule).workers) <= setup.sizes[chain]
  {
    StartHolds(setup, addresses, width, health);
    EveryScheduleIsSafe(setup, addresses, H.Unhealthy(health), Start(addresses, width, health), schedule);
  }

  // What a batch can end with: some complete schedule leads from its start to these results and this health book.
  ghost predicate Outcome(setup: Setup, addresses: seq<Address>, width: nat, health: H.Book,
                          results: seq<Result>, healthAfter: H.Book) {
    exists schedule {:trigger Allowed(setup, Start(addresses, width, health), schedule)} ::
      Allowed(setup, Start(addresses, width, health), schedule)
      && EndsWith(After(setup, Start(addresses, width, health), schedule), results, healthAfter)
  }

  predicate EndsWith(end: State, results: seq<Result>, health: H.Book) {
    end.done && end.collected == results && end.health == health
  }

  lemma {:induction false} OutcomeIsComplete(setup: Setup, addresses: seq<Address>, width: nat, health: H.Book,
                                             results: seq<Result>, healthAfter: H.Book)
    requires ValidSetup(setup) && width >= 1 && Outcome(setup, addresses, width, health, results, healthAfter)
    ensures BatchDone(addresses, H.Unhealthy(health), results, H.Unhealthy(healthAfter))
  {
    var start := Start(addresses, width, health);
    var schedule :| Allowed(setup, start, schedule) && EndsWith(After(setup, start, schedule), results, healthAfter);
    StartHolds(setup, addresses, width, health);
    EveryScheduleIsSafe(setup, addresses, H.Unhealthy(health), start, schedule);
    DoneMeansComplete(setup, addresses, H.Unhealthy(health), After(setup, start, schedule));
  }

  // Every state that the pool can reach has a way to the end.
  lemma {:induction false} CompletingSchedule(setup: Setup, addresses: seq<Address>, sick: set<Chain>, s: State)
    returns (schedule: seq<(Actor, Input)>)
    requires Inv(setup, addresses, sick, s)
    ensures Allowed(setup, s, schedule) && After(setup, s, schedule).done
    decreases Measure(setup, s)
  {
    if s.done {
      schedule := [];
    } else {
      var actor := NeverDeadlocks(setup, addresses, sick, s);
      var input := Input(Unconfigured(), false);
      StepKeepsInv(setup, addresses, sick, s, actor, input);
      StepIsLighter(setup, s, actor, input);
      var rest := CompletingSchedule(setup, addresses, sick, Apply(setup, s, actor, input));
      schedule := [(actor, input)] + rest;
      assert schedule[1..] == rest;
    }
  }

  lemma {:induction false} SomeOutcome(setup: Setup, addresses: seq<Address>, width: nat, health: H.Book)
    returns (results: seq<Result>, healthAfter: H.Book)
    requires ValidSetup(setup) && width >= 1
    ensures Outcome(setup, addresses, width, health, results, healthAfter)
  {
    var start := Start(addresses, width, health);
    StartHolds(setup, addresses, width, health);
    var schedule := CompletingSchedule(setup, addresses, H.Unhealthy(health), start);
    var end := After(setup, start, schedule);
    results, healthAfter := end.collected, end.health;
  }

  lemma {:induction false} ScheduleExtends(setup: Setup, s: State, schedule: seq<(Actor, Input)>, actor: Actor,
                                           input: Input)
    requires Allowed(setup, s, schedule)
    requires var t := After(setup, s, schedule);
             (forall i :: 0 <= i < |t.workers| ==> PhaseOk(setup, t.workers[i])) && Enabled(setup, t, actor)
    ensures Allowed(setup, s, schedule + [(actor, input)])
    ensures After(setup, s, schedule + [(actor, input)]) == Apply(setup, After(setup, s, schedule), actor, input)
    decreases |schedule|
  {
    var longer := schedule + [(actor, input)];
    if schedule == [] {
      assert longer[1..] == [];
    } else {
      var (first, given) := schedule[0];
      ScheduleExtends(setup, Apply(setup, s, first, given), schedule[1..], actor, input);
      assert longer[1..] == schedule[1..] + [(actor, input)];
    }
  }
}
