// The worker pool of one batch as a state machine: a feeder, workers sharing per-chain semaphores
// and a health book, a buffered results channel and a collector. Every step is atomic; any
// interleaving of enabled steps is allowed.
module Pool {
  import opened Domain
  import opened Results
  import opened Attempts
  import H = Health

  datatype Setup = Setup(providers: set<Chain>, sizes: map<Chain, nat>, policy: Policy, threshold: nat)

  // Semaphores are created with at least one slot.
  ghost predicate ValidSetup(setup: Setup) {
    forall chain :: chain in setup.sizes ==> setup.sizes[chain] >= 1
  }

  // Where a worker stands. The chain being checked is the one after the answers in result.
  datatype Phase =
    | Waiting
    | Next(result: Result)
    | Queued(result: Result, attempt: nat)
    | Calling(result: Result, attempt: nat)
    | Replied(result: Result, attempt: nat, reply: Reply)
    | Sleeping(result: Result, attempt: nat)
    | Refused(result: Result, answer: Reply)
    | Alerting(result: Result, answer: Reply)
    | Sending(result: Result)
    | Exited
  {
    predicate Busy() { !Waiting? && !Exited? }

    // A provider call, or a step leading to or from one, for the next chain.
    predicate Checking() { Queued? || Calling? || Replied? || Sleeping? || Refused? }
  }

  datatype State = State(
    todo: seq<Address>, jobsClosed: bool,
    workers: seq<Phase>, slots: map<Chain, nat>,
    buffer: seq<Result>, capacity: nat, resultsClosed: bool,
    collected: seq<Result>, done: bool,
    health: H.Book, cancelled: bool)

  datatype Actor = Feeder | Collector | Canceller | Worker(index: nat)

  // What the environment supplies to a step: a provider reply, and which ready case a select takes.
  datatype Input = Input(reply: Reply, takeDone: bool)

  function Start(addresses: seq<Address>, width: nat, health: H.Book): State {
    var workers := if width > |addresses| then |addresses| else width;
    State(addresses, false, seq(workers, _ => Waiting), map[], [], |addresses|, false, [], false, health, false)
  }

  function ChainOf(result: Result): Chain
    requires |result.answers| < |ChainsFor(result.address.kind)|
  {
    ChainsFor(result.address.kind)[|result.answers|]
  }

  function Used(slots: map<Chain, nat>, chain: Chain): nat {
    if chain in slots then slots[chain] else 0
  }

  predicate HasRoom(setup: Setup, s: State, chain: Chain) {
    chain in setup.sizes ==> Used(s.slots, chain) < setup.sizes[chain]
  }

  predicate PhaseOk(setup: Setup, phase: Phase) {
    && (phase.Busy() ==> |phase.result.answers| <= |ChainsFor(phase.result.address.kind)|)
    && (phase.Checking() ==> |phase.result.answers| < |ChainsFor(phase.result.address.kind)|)
    && (phase.Queued? || phase.Calling? || phase.Replied? ==> phase.attempt <= setup.policy.maxRetries)
    && (phase.Sleeping? ==> phase.attempt < setup.policy.maxRetries)
    && (phase.Refused? ==> !phase.answer.Balance?)
    && (phase.Alerting? ==> 0 < |phase.result.answers| && phase.result.pause && !phase.answer.Balance?)
    && (phase.Sending? ==> |phase.result.answers| == |ChainsFor(phase.result.address.kind)|)
  }

  predicate AllExited(workers: seq<Phase>) {
    forall i :: 0 <= i < |workers| ==> workers[i].Exited?
  }

  predicate WorkerEnabled(setup: Setup, s: State, phase: Phase)
    requires PhaseOk(setup, phase)
  {
    match phase
    case Waiting => s.todo != [] || s.jobsClosed
    case Queued(result, _) => HasRoom(setup, s, ChainOf(result)) || s.cancelled
    case Sending(_) => |s.buffer| < s.capacity
    case Exited => false
    case _ => true
  }

  predicate Enabled(setup: Setup, s: State, actor: Actor)
    requires forall i :: 0 <= i < |s.workers| ==> PhaseOk(setup, s.workers[i])
  {
    match actor
    case Feeder => (s.todo == [] && !s.jobsClosed) || (s.jobsClosed && AllExited(s.workers) && !s.resultsClosed)
    case Collector => s.buffer != [] || (s.resultsClosed && !s.done)
    case Canceller => !s.cancelled
    case Worker(i) => i < |s.workers| && WorkerEnabled(setup, s, s.workers[i])
  }

  // The phase a worker moves to.
  function Advance(setup: Setup, s: State, phase: Phase, input: Input): Phase
    requires PhaseOk(setup, phase) && WorkerEnabled(setup, s, phase)
  {
    match phase
    case Waiting =>
      if s.todo != [] then Next(Result(s.todo[0], [], [], [], false, [])) else Exited
    case Next(result) =>
      if |result.answers| == |ChainsFor(result.address.kind)| then Sending(result)
      else if ChainOf(result) !in setup.providers then Next(WithAnswer(result, Unconfigured()))
      else Queued(result, 0)
    case Queued(result, attempt) =>
      if s.cancelled && (input.takeDone || !HasRoom(setup, s, ChainOf(result)))
      then Refused(result, Unclassified("context canceled"))
      else Calling(result, attempt)
    case Calling(result, attempt) => Replied(result, attempt, input.reply)
    case Replied(result, attempt, reply) =>
      (match Judge(ChainOf(result), attempt, setup.policy, reply)
       case Accept => Next(WithAnswer(result, reply))
       case Refuse(error) => Refused(result, Classified(error))
       case Again(_) => Sleeping(result, attempt))
    case Sleeping(result, attempt) =>
      if s.cancelled && input.takeDone then Refused(result, Unclassified("context canceled"))
      else Queued(result, attempt + 1)
    case Refused(result, answer) =>
      var answered := WithAnswer(result, answer);
      if H.At(s.health, ChainOf(result)).unhealthy then Alerting(answered.(pause := true), answer)
      else Next(answered)
    case Alerting(result, answer) =>
      var chain := ChainsFor(result.address.kind)[|result.answers| - 1];
      var error := AsProviderError(answer, chain, false);
      if H.AlertDue(s.health, chain)
      then Next(result.(alerts := result.alerts + [NodeAlert(chain, error.provider, error.code,
                                                             H.At(s.health, chain).failures)]))
      else Next(result)
    case Sending(_) => Waiting
  }

  // The health call, if any, that the same step makes.
  function HealthAfter(setup: Setup, s: State, phase: Phase): H.Book
    requires PhaseOk(setup, phase)
  {
    match phase
    case Replied(result, attempt, reply) =>
      (match Judge(ChainOf(result), attempt, setup.policy, reply)
       case Accept => H.Succeed(s.health, ChainOf(result))
       case Refuse(_) => H.Fail(s.health, ChainOf(result), setup.threshold)
       case Again(_) => s.health)
    case Refused(result, _) => H.Touch(s.health, ChainOf(result))
    case Alerting(result, _) =>
      H.MarkAlerted(s.health, ChainsFor(result.address.kind)[|result.answers| - 1])
    case _ => s.health
  }

  function SlotsAfter(setup: Setup, slots: map<Chain, nat>, before: Phase, after: Phase): map<Chain, nat>
    requires PhaseOk(setup, before) && PhaseOk(setup, after)
  {
    if after.Calling? && ChainOf(after.result) in setup.sizes then
      slots[ChainOf(after.result) := Used(slots, ChainOf(after.result)) + 1]
    else if before.Calling? && ChainOf(before.result) in setup.sizes then
      slots[ChainOf(before.result) := if Used(slots, ChainOf(before.result)) > 0
                                      then Used(slots, ChainOf(before.result)) - 1 else 0]
    else slots
  }

  // One worker moves to its next phase: it may take an address from the feeder or leave a result in the channel.
  function Moved(s: State, i: nat, next: Phase): State
    requires i < |s.workers|
  {
    var phase := s.workers[i];
    s.(workers := s.workers[i := next],
       todo := if phase.Waiting? && s.todo != [] then s.todo[1..] else s.todo,
       buffer := if phase.Sending? then s.buffer + [phase.result] else s.buffer)
  }

  lemma {:induction false} AdvanceKeepsPhaseOk(setup: Setup, s: State, phase: Phase, input: Input)
    requires PhaseOk(setup, phase) && WorkerEnabled(setup, s, phase)
    ensures PhaseOk(setup, Advance(setup, s, phase, input))
  {}

  function Apply(setup: Setup, s: State, actor: Actor, input: Input): State
    requires forall i :: 0 <= i < |s.workers| ==> PhaseOk(setup, s.workers[i])
    requires Enabled(setup, s, actor)
  {
    match actor
    case Feeder => if !s.jobsClosed then s.(jobsClosed := true) else s.(resultsClosed := true)
    case Collector =>
      if s.buffer != [] then s.(collected := s.collected + [s.buffer[0]], buffer := s.buffer[1..])
      else s.(done := true)
    case Canceller => s.(cancelled := true)
    case Worker(i) =>
      var phase := s.workers[i];
      var next := Advance(setup, s, phase, input);
      AdvanceKeepsPhaseOk(setup, s, phase, input);
      Moved(s, i, next).(slots := SlotsAfter(setup, s.slots, phase, next), health := HealthAfter(setup, s, phase))
  }
}
