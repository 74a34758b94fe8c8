// What every interleaving of the worker pool keeps.
module PoolInvariant {
  import opened Domain
  import opened Results
  import opened Pool
  import H = Health

  // Sums over the workers, and how they change when one worker moves.

  lemma {:induction false} SumMoves(weight: Phase -> nat, workers: seq<Phase>, i: nat, next: Phase)
    requires i < |workers|
    ensures Sum(weight, workers[i := next]) + weight(workers[i]) == Sum(weight, workers) + weight(next)
    decreases |workers|
  {
    var n := |workers| - 1;
    if i < n {
      SumMoves(weight, workers[..n], i, next);
      assert workers[i := next][..n] == workers[..n][i := next];
    } else {
      assert workers[i := next][..n] == workers[..n];
    }
  }

  lemma {:induction false} SumHasWitness(weight: Phase -> nat, workers: seq<Phase>)
    ensures Sum(weight, workers) > 0 ==> exists i :: 0 <= i < |workers| && weight(workers[i]) > 0
  {
    if workers != [] {
      var n := |workers| - 1;
      SumHasWitness(weight, workers[..n]);
      if Sum(weight, workers[..n]) > 0 {
        var i :| 0 <= i < n && weight(workers[..n][i]) > 0;
        assert weight(workers[i]) > 0;
      }
    }
  }

  lemma {:induction false} SumOfZeros(weight: Phase -> nat, workers: seq<Phase>)
    requires forall i :: 0 <= i < |workers| ==> weight(workers[i]) == 0
    ensures Sum(weight, workers) == 0
  {
    if workers != [] { SumOfZeros(weight, workers[..|workers| - 1]); }
  }

  // A provider call in flight on the chain.
  function InCall(chain: Chain): Phase -> nat {
    (phase: Phase) => if phase.Calling? && |phase.result.answers| < |ChainsFor(phase.result.address.kind)|
                && ChainOf(phase.result) == chain then 1 else 0
  }

  // The address a worker holds.
  function Own(phase: Phase): multiset<Address> {
    if phase.Busy() then multiset{phase.result.address} else multiset{}
  }

  function Held(workers: seq<Phase>): multiset<Address> {
    if workers == [] then multiset{} else Held(workers[..|workers| - 1]) + Own(workers[|workers| - 1])
  }

  lemma {:induction false} Shuffle<T>(a: multiset<T>, b: multiset<T>, c: multiset<T>, d: multiset<T>, e: multiset<T>)
    requires a + b == c + d
    ensures a + e + b == c + e + d
  {
    assert a + e + b == a + b + e;
    assert c + e + d == c + d + e;
  }

  lemma {:induction false} Cancel<T>(a: multiset<T>, b: multiset<T>, m: multiset<T>)
    requires a + m == b + m
    ensures a == b
  {
    forall x ensures a[x] == b[x] {
      assert (a + m)[x] == (b + m)[x];
    }
  }

  lemma {:induction false} HeldMoves(workers: seq<Phase>, i: nat, next: Phase)
    requires i < |workers|
    ensures Held(workers[i := next]) + Own(workers[i]) == Held(workers) + Own(next)
    decreases |workers|
  {
    var n := |workers| - 1;
    if i < n {
      HeldMoves(workers[..n], i, next);
      assert workers[i := next][..n] == workers[..n][i := next];
      Shuffle(Held(workers[..n][i := next]), Own(workers[i]), Held(workers[..n]), Own(next), Own(workers[n]));
    } else {
      assert workers[i := next][..n] == workers[..n];
      Swap(Held(workers[..n]), Own(next), Own(workers[n]));
    }
  }

  lemma {:induction false} Swap<T>(a: multiset<T>, b: multiset<T>, c: multiset<T>)
    ensures a + b + c == a + c + b
  {}

  lemma {:induction false} NothingHeld(workers: seq<Phase>)
    requires forall i :: 0 <= i < |workers| ==> !workers[i].Busy()
    ensures Held(workers) == multiset{}
  {
    if workers != [] { NothingHeld(workers[..|workers| - 1]); }
  }

  lemma {:induction false} HeldContains(workers: seq<Phase>, i: nat)
    requires i < |workers| && workers[i].Busy()
    ensures workers[i].result.address in Held(workers)
  {
    var n := |workers| - 1;
    if i < n { HeldContains(workers[..n], i); }
  }

  function Owners(results: seq<Result>): multiset<Address>
    ensures |Owners(results)| == |results|
  {
    if results == [] then multiset{} else Owners(results[..|results| - 1]) + multiset{results[|results| - 1].address}
  }

  lemma {:induction false} OwnersGrow(results: seq<Result>, result: Result)
    ensures Owners(results + [result]) == Owners(results) + multiset{result.address}
  {
    assert (results + [result])[..|results|] == results;
  }

  lemma {:induction false} OwnersShrink(results: seq<Result>)
    requires results != []
    ensures Owners(results) == multiset{results[0].address} + Owners(results[1..])
  {
    var n := |results| - 1;
    if n > 0 {
      OwnersShrink(results[..n]);
      assert results[..n][1..] == results[1..][..n - 1];
    }
  }

  // The invariant.

  ghost predicate ResultsOk(results: seq<Result>) {
    forall i :: 0 <= i < |results| ==> FullyAnswered(results[i])
  }

  ghost predicate WorkersOk(setup: Setup, workers: seq<Phase>) {
    forall i :: 0 <= i < |workers| ==>
      PhaseOk(setup, workers[i]) && (workers[i].Busy() ==> WellFormed(workers[i].result))
  }

  // Every copy of an address is still queued, with a worker, in the channel or collected.
  ghost predicate Copies(addresses: seq<Address>, s: State, a: Address) {
    multiset(addresses)[a]
      == multiset(s.todo)[a] + Held(s.workers)[a] + Owners(s.buffer)[a] + Owners(s.collected)[a]
  }

  ghost predicate Conserved(addresses: seq<Address>, s: State) {
    && s.capacity == |addresses|
    && forall a :: Copies(addresses, s, a)
  }

  // Each semaphore counts the calls in flight on its chain and stays within its size.
  ghost predicate SlotsOk(setup: Setup, s: State) {
    forall chain :: chain in setup.sizes ==>
      Used(s.slots, chain) == Sum(InCall(chain), s.workers) && Used(s.slots, chain) <= setup.sizes[chain]
  }

  // Channels close in order, each after its last sender is done.
  ghost predicate ClosingOk(s: State) {
    && (s.jobsClosed ==> s.todo == [])
    && (forall i :: 0 <= i < |s.workers| && s.workers[i].Exited? ==> s.jobsClosed)
    && (s.resultsClosed ==> s.jobsClosed && AllExited(s.workers))
    && (s.done ==> s.resultsClosed && s.buffer == [])
    && (s.workers == [] ==> s.todo == [])
  }

  ghost predicate PauseRequested(s: State) {
    || (exists r :: r in s.collected && r.pause)
    || (exists r :: r in s.buffer && r.pause)
    || (exists w :: w in s.workers && w.Busy() && w.result.pause)
  }

  // A worker that recorded a failure on the chain and has yet to ask about its health.
  ghost predicate AboutToAsk(s: State, chain: Chain) {
    exists i :: 0 <= i < |s.workers| && s.workers[i].Refused?
      && |s.workers[i].result.answers| < |ChainsFor(s.workers[i].result.address.kind)|
      && ChainOf(s.workers[i].result) == chain
  }

  // A chain that fell ill during the batch has made a result ask for a pause, or is about to.
  ghost predicate HealthOk(sick: set<Chain>, s: State) {
    forall chain :: chain in H.Unhealthy(s.health) ==>
      chain in sick || PauseRequested(s) || AboutToAsk(s, chain)
  }

  ghost predicate Inv(setup: Setup, addresses: seq<Address>, sick: set<Chain>, s: State) {
    && ValidSetup(setup)
    && WorkersOk(setup, s.workers)
    && ResultsOk(s.buffer) && ResultsOk(s.collected)
    && Conserved(addresses, s)
    && SlotsOk(setup, s)
    && ClosingOk(s)
    && HealthOk(sick, s)
  }

  lemma {:induction false} StartSums(weight: Phase -> nat, n: nat)
    requires weight(Waiting) == 0
    ensures Sum(weight, seq(n, _ => Waiting)) == 0
  {
    SumOfZeros(weight, seq(n, _ => Waiting));
  }

  lemma {:induction false} StartHolds(setup: Setup, addresses: seq<Address>, width: nat, health: H.Book)
    requires ValidSetup(setup) && width >= 1
    ensures Inv(setup, addresses, H.Unhealthy(health), Start(addresses, width, health))
  {
    var s := Start(addresses, width, health);
    NothingHeld(s.workers);
    forall chain | chain in setup.sizes ensures Used(s.slots, chain) == Sum(InCall(chain), s.workers) {
      StartSums(InCall(chain), |s.workers|);
    }
  }

  // Each conjunct is kept by every step.

  lemma {:induction false} AdvanceKeepsWellFormed(setup: Setup, s: State, phase: Phase, input: Input)
    requires PhaseOk(setup, phase) && WorkerEnabled(setup, s, phase)
    requires phase.Busy() ==> WellFormed(phase.result)
    ensures var next := Advance(setup, s, phase, input); next.Busy() ==> WellFormed(next.result)
  {
    match phase {
      case Next(result) =>
        if |result.answers| < |ChainsFor(result.address.kind)| {
          AnswerKeepsWellFormed(result, Unconfigured());
        }
      case Replied(result, _, reply) => AnswerKeepsWellFormed(result, reply);
      case Refused(result, answer) => AnswerKeepsWellFormed(result, answer);
      case _ =>
    }
  }

  lemma {:induction false} OneWorkerKept(setup: Setup, s: State, i: nat, input: Input)
    requires WorkersOk(setup, s.workers) && ResultsOk(s.buffer)
    requires i < |s.workers| && WorkerEnabled(setup, s, s.workers[i])
    ensures var after := Moved(s, i, Advance(setup, s, s.workers[i], input));
            WorkersOk(setup, after.workers) && ResultsOk(after.buffer)
  {
    AdvanceKeepsPhaseOk(setup, s, s.workers[i], input);
    AdvanceKeepsWellFormed(setup, s, s.workers[i], input);
    WorkerReplaced(setup, s.workers, i, Advance(setup, s, s.workers[i], input));
  }

  lemma {:induction false} WorkerReplaced(setup: Setup, workers: seq<Phase>, i: nat, next: Phase)
    requires WorkersOk(setup, workers) && i < |workers|
    requires PhaseOk(setup, next) && (next.Busy() ==> WellFormed(next.result))
    ensures WorkersOk(setup, workers[i := next])
  {}

  lemma {:induction false} WorkersKept(setup: Setup, s: State, actor: Actor, input: Input)
    requires WorkersOk(setup, s.workers) && ResultsOk(s.buffer) && ResultsOk(s.collected)
    requires Enabled(setup, s, actor)
    ensures WorkersOk(setup, Apply(setup, s, actor, input).workers)
    ensures ResultsOk(Apply(setup, s, actor, input).buffer)
    ensures ResultsOk(Apply(setup, s, actor, input).collected)
  {
    if actor.Worker? {
      OneWorkerKept(setup, s, actor.index, input);
    }
  }

  // A worker keeps its address from taking it up until its result is in the channel.
  ghost predicate AddressCarried(todo: seq<Address>, phase: Phase, next: Phase) {
    if phase.Waiting? then Own(next) == if todo != [] then multiset{todo[0]} else multiset{}
    else if phase.Sending? then Own(next) == multiset{}
    else Own(next) == Own(phase)
  }

  lemma {:induction false} AdvanceCarriesAddress(setup: Setup, s: State, phase: Phase, input: Input)
    requires PhaseOk(setup, phase) && WorkerEnabled(setup, s, phase)
    ensures AddressCarried(s.todo, phase, Advance(setup, s, phase, input))
  {}

  lemma {:induction false} HeldAfter(todo: seq<Address>, workers: seq<Phase>, i: nat, next: Phase)
    requires i < |workers| && AddressCarried(todo, workers[i], next)
    ensures var held := Held(workers[i := next]);
            if workers[i].Waiting? && todo != [] then held == Held(workers) + multiset{todo[0]}
            else if workers[i].Sending? then held + multiset{workers[i].result.address} == Held(workers)
            else held == Held(workers)
  {
    HeldMoves(workers, i, next);
    if !workers[i].Sending? && !(workers[i].Waiting? && todo != []) {
      Cancel(Held(workers[i := next]), Held(workers), Own(workers[i]));
    }
  }

  lemma {:induction false} TodoTaken(todo: seq<Address>)
    requires todo != []
    ensures multiset(todo) == multiset(todo[1..]) + multiset{todo[0]}
  {
    assert todo == [todo[0]] + todo[1..];
  }

  lemma {:induction false} CopiesByTaking(addresses: seq<Address>, s: State, i: nat, next: Phase, a: Address)
    requires i < |s.workers| && Copies(addresses, s, a) && AddressCarried(s.todo, s.workers[i], next)
    requires s.workers[i].Waiting? && s.todo != []
    ensures Copies(addresses, Moved(s, i, next), a)
  {
    HeldAfter(s.todo, s.workers, i, next);
    TodoTaken(s.todo);
  }

  lemma {:induction false} CopiesByDelivering(addresses: seq<Address>, s: State, i: nat, next: Phase, a: Address)
    requires i < |s.workers| && Copies(addresses, s, a) && AddressCarried(s.todo, s.workers[i], next)
    requires s.workers[i].Sending?
    ensures Copies(addresses, Moved(s, i, next), a)
  {
    HeldAfter(s.todo, s.workers, i, next);
    OwnersGrow(s.buffer, s.workers[i].result);
  }

  lemma {:induction false} CopiesByWorking(addresses: seq<Address>, s: State, i: nat, next: Phase, a: Address)
    requires i < |s.workers| && Copies(addresses, s, a) && AddressCarried(s.todo, s.workers[i], next)
    requires !s.workers[i].Sending? && !(s.workers[i].Waiting? && s.todo != [])
    ensures Copies(addresses, Moved(s, i, next), a)
  {
    HeldAfter(s.todo, s.workers, i, next);
  }

  lemma {:induction false} CopiesByMove(addresses: seq<Address>, s: State, i: nat, next: Phase, a: Address)
    requires i < |s.workers| && Copies(addresses, s, a) && AddressCarried(s.todo, s.workers[i], next)
    ensures Copies(addresses, Moved(s, i, next), a)
  {
    if s.workers[i].Waiting? && s.todo != [] {
      CopiesByTaking(addresses, s, i, next, a);
    } else if s.workers[i].Sending? {
      CopiesByDelivering(addresses, s, i, next, a);
    } else {
      CopiesByWorking(addresses, s, i, next, a);
    }
  }

  lemma {:induction false} CopiesByCollector(addresses: seq<Address>, s: State, a: Address)
    requires s.buffer != [] && Copies(addresses, s, a)
    ensures Copies(addresses, s.(collected := s.collected + [s.buffer[0]], buffer := s.buffer[1..]), a)
  {
    OwnersShrink(s.buffer);
    OwnersGrow(s.collected, s.buffer[0]);
  }

  lemma {:induction false} ConservedKept(setup: Setup, addresses: seq<Address>, s: State, actor: Actor, input: Input)
    requires WorkersOk(setup, s.workers) && Conserved(addresses, s) && Enabled(setup, s, actor)
    ensures Conserved(addresses, Apply(setup, s, actor, input))
  {
    var after := Apply(setup, s, actor, input);
    forall a ensures Copies(addresses, after, a) {
      assert Copies(addresses, s, a);
      match actor {
        case Worker(i) =>
          AdvanceCarriesAddress(setup, s, s.workers[i], input);
          CopiesByMove(addresses, s, i, Advance(setup, s, s.workers[i], input), a);
        case Collector => if s.buffer != [] { CopiesByCollector(addresses, s, a); }
        case _ =>
      }
    }
  }

  lemma {:induction false} CallNeedsRoom(setup: Setup, s: State, phase: Phase, input: Input)
    requires PhaseOk(setup, phase) && WorkerEnabled(setup, s, phase)
    ensures var next := Advance(setup, s, phase, input);
            next.Calling? ==> PhaseOk(setup, next) && !phase.Calling? && HasRoom(setup, s, ChainOf(next.result))
  {}

  lemma {:induction false} SlotMoves(setup: Setup, s: State, phase: Phase, next: Phase, chain: Chain, total: nat,
                                     moved: nat)
    requires PhaseOk(setup, phase) && PhaseOk(setup, next) && chain in setup.sizes
    requires next.Calling? ==> !phase.Calling? && HasRoom(setup, s, ChainOf(next.result))
    requires Used(s.slots, chain) == total <= setup.sizes[chain]
    requires moved + InCall(chain)(phase) == total + InCall(chain)(next)
    ensures Used(SlotsAfter(setup, s.slots, phase, next), chain) == moved <= setup.sizes[chain]
  {}

  lemma {:induction false} SlotKept(setup: Setup, s: State, i: nat, input: Input, chain: Chain)
    requires WorkersOk(setup, s.workers) && SlotsOk(setup, s) && chain in setup.sizes
    requires i < |s.workers| && WorkerEnabled(setup, s, s.workers[i])
    ensures var next := Advance(setup, s, s.workers[i], input);
            && PhaseOk(setup, next)
            && Used(SlotsAfter(setup, s.slots, s.workers[i], next), chain) == Sum(InCall(chain), s.workers[i := next])
            && Used(SlotsAfter(setup, s.slots, s.workers[i], next), chain) <= setup.sizes[chain]
  {
    var phase := s.workers[i];
    var next := Advance(setup, s, phase, input);
    AdvanceKeepsPhaseOk(setup, s, phase, input);
    CallNeedsRoom(setup, s, phase, input);
    SumMoves(InCall(chain), s.workers, i, next);
    SlotMoves(setup, s, phase, next, chain, Sum(InCall(chain), s.workers), Sum(InCall(chain), s.workers[i := next]));
  }

  lemma {:induction false} SlotsKept(setup: Setup, s: State, actor: Actor, input: Input)
    requires ValidSetup(setup) && WorkersOk(setup, s.workers) && SlotsOk(setup, s) && Enabled(setup, s, actor)
    ensures SlotsOk(setup, Apply(setup, s, actor, input))
  {
    if actor.Worker? {
      forall chain | chain in setup.sizes {
        SlotKept(setup, s, actor.index, input, chain);
      }
    }
  }

  lemma {:induction false} ClosingKept(setup: Setup, s: State, actor: Actor, input: Input)
    requires WorkersOk(setup, s.workers) && ClosingOk(s) && Enabled(setup, s, actor)
    ensures ClosingOk(Apply(setup, s, actor, input))
  {}

  // A refusal on an unhealthy chain asks for a pause.
  lemma {:induction false} RefusalAsks(setup: Setup, s: State, i: nat, input: Input)
    requires WorkersOk(setup, s.workers) && Enabled(setup, s, Worker(i)) && s.workers[i].Refused?
    requires ChainOf(s.workers[i].result) in H.Unhealthy(s.health)
    ensures PauseRequested(Apply(setup, s, Worker(i), input))
  {
    var after := Apply(setup, s, Worker(i), input);
    assert after.workers[i].Alerting? && after.workers[i] in after.workers;
  }

  lemma {:induction false} HealthKept(setup: Setup, sick: set<Chain>, s: State, actor: Actor, input: Input)
    requires WorkersOk(setup, s.workers) && HealthOk(sick, s) && Enabled(setup, s, actor)
    ensures HealthOk(sick, Apply(setup, s, actor, input))
  {
    var after := Apply(setup, s, actor, input);
    PauseKept(setup, s, actor, input);
    if actor.Worker? {
      var i, phase := actor.index, s.workers[actor.index];
      if phase.Refused? && ChainOf(phase.result) in H.Unhealthy(s.health) {
        RefusalAsks(setup, s, i, input);
      }
      forall chain | chain in H.Unhealthy(after.health) && chain !in sick && !PauseRequested(after)
        ensures AboutToAsk(after, chain)
      {
        if chain in H.Unhealthy(s.health) {
          var j :| 0 <= j < |s.workers| && s.workers[j].Refused?
            && |s.workers[j].result.answers| < |ChainsFor(s.workers[j].result.address.kind)|
            && ChainOf(s.workers[j].result) == chain;
          assert after.workers[j] == s.workers[j];
        } else {
          assert after.workers[i].Refused? && ChainOf(after.workers[i].result) == chain;
        }
      }
    }
  }

  lemma {:induction false} QueuedPauseKept(setup: Setup, s: State, actor: Actor, input: Input, r: Result)
    requires WorkersOk(setup, s.workers) && Enabled(setup, s, actor)
    requires r.pause && (r in s.collected || r in s.buffer)
    ensures PauseRequested(Apply(setup, s, actor, input))
  {
    var after := Apply(setup, s, actor, input);
    assert r in after.buffer || r in after.collected;
  }

  lemma {:induction false} WorkerPauseKept(setup: Setup, s: State, actor: Actor, input: Input, j: nat)
    requires WorkersOk(setup, s.workers) && Enabled(setup, s, actor)
    requires j < |s.workers| && s.workers[j].Busy() && s.workers[j].result.pause
    ensures PauseRequested(Apply(setup, s, actor, input))
  {
    var after, w := Apply(setup, s, actor, input), s.workers[j];
    if actor == Worker(j) {
      PauseTravels(setup, s, w, input);
      PauseMoves(s, j, Advance(setup, s, w, input));
    } else {
      assert after.workers[j] == w;
    }
  }

  lemma {:induction false} PauseKept(setup: Setup, s: State, actor: Actor, input: Input)
    requires WorkersOk(setup, s.workers) && Enabled(setup, s, actor)
    ensures PauseRequested(s) ==> PauseRequested(Apply(setup, s, actor, input))
  {
    if r :| (r in s.collected || r in s.buffer) && r.pause {
      QueuedPauseKept(setup, s, actor, input, r);
    } else if w :| w in s.workers && w.Busy() && w.result.pause {
      var j :| 0 <= j < |s.workers| && s.workers[j] == w;
      WorkerPauseKept(setup, s, actor, input, j);
    }
  }

  lemma {:induction false} PauseMoves(s: State, i: nat, next: Phase)
    requires i < |s.workers|
    requires s.workers[i].Busy() && s.workers[i].result.pause
    requires s.workers[i].Sending? || (next.Busy() && next.result.pause)
    ensures PauseRequested(Moved(s, i, next))
  {
    var after := Moved(s, i, next);
    assert after.workers[i] in after.workers;
    assert s.workers[i].Sending? ==> s.workers[i].result in after.buffer;
  }

  lemma {:induction false} PauseTravels(setup: Setup, s: State, phase: Phase, input: Input)
    requires PhaseOk(setup, phase) && WorkerEnabled(setup, s, phase) && phase.Busy() && phase.result.pause
    ensures phase.Sending?
         || (Advance(setup, s, phase, input).Busy() && Advance(setup, s, phase, input).result.pause)
  {}

  lemma {:induction false} StepKeepsInv(setup: Setup, addresses: seq<Address>, sick: set<Chain>, s: State,
                                        actor: Actor, input: Input)
    requires Inv(setup, addresses, sick, s) && Enabled(setup, s, actor)
    ensures Inv(setup, addresses, sick, Apply(setup, s, actor, input))
  {
    WorkersKept(setup, s, actor, input);
    ConservedKept(setup, addresses, s, actor, input);
    SlotsKept(setup, s, actor, input);
    ClosingKept(setup, s, actor, input);
    HealthKept(setup, sick, s, actor, input);
  }
}
