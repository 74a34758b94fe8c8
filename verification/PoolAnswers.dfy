// The answers of a batch do not depend on the interleaving: given the providers' replies, each is what the attempts
// for its chain come to on their own.
module PoolAnswers {
  import opened Domain
  import opened Results
  import opened Attempts
  import opened Pool
  import opened PoolInvariant
  import opened PoolRuns
  import H = Health

  // The reply a provider gives to an address at an attempt.
  type Oracle = (Address, Chain, nat) -> Reply

  function Replies(oracle: Oracle, address: Address, chain: Chain): nat -> Reply {
    (attempt: nat) => oracle(address, chain, attempt)
  }

  function Expected(setup: Setup, oracle: Oracle, address: Address, chain: Chain): Reply {
    if chain !in setup.providers then Unconfigured()
    else FinalAnswer(chain, setup.policy, Replies(oracle, address, chain), 0)
  }

  const CANCELLED := Unclassified("context canceled")

  // The schedule's inputs are the oracle's replies.
  ghost predicate Follows(setup: Setup, s: State, schedule: seq<(Actor, Input)>, oracle: Oracle)
    requires Allowed(setup, s, schedule)
    decreases |schedule|
  {
    schedule == [] ||
    (&& InputFits(setup, s, schedule[0].0, schedule[0].1, oracle)
     && Follows(setup, Apply(setup, s, schedule[0].0, schedule[0].1), schedule[1..], oracle))
  }

  predicate InputFits(setup: Setup, s: State, actor: Actor, input: Input, oracle: Oracle)
    requires forall i :: 0 <= i < |s.workers| ==> PhaseOk(setup, s.workers[i])
    requires Enabled(setup, s, actor)
  {
    actor.Worker? && s.workers[actor.index].Calling? ==>
      var phase := s.workers[actor.index];
      input.reply == oracle(phase.result.address, ChainOf(phase.result), phase.attempt)
  }

  // The answer is the expected one, or an error of a cancelled check.
  predicate AnswerFits(setup: Setup, oracle: Oracle, cancelled: bool, address: Address, k: nat, answer: Reply) {
    && k < |ChainsFor(address.kind)|
    && (|| answer == Expected(setup, oracle, address, ChainsFor(address.kind)[k])
        || (cancelled && answer == CANCELLED))
  }

  ghost predicate AnswersFit(setup: Setup, oracle: Oracle, cancelled: bool, r: Result) {
    forall k :: 0 <= k < |r.answers| ==> AnswerFits(setup, oracle, cancelled, r.address, k, r.answers[k])
  }

  // From this attempt on the replies come to the expected answer.
  predicate OnTheWay(setup: Setup, oracle: Oracle, r: Result, attempt: nat)
    requires |r.answers| < |ChainsFor(r.address.kind)|
  {
    && ChainOf(r) in setup.providers
    && FinalAnswer(ChainOf(r), setup.policy, Replies(oracle, r.address, ChainOf(r)), attempt)
    == Expected(setup, oracle, r.address, ChainOf(r))
  }

  ghost predicate PhaseFits(setup: Setup, oracle: Oracle, cancelled: bool, phase: Phase)
    requires PhaseOk(setup, phase)
  {
    && (phase.Busy() ==> AnswersFit(setup, oracle, cancelled, phase.result))
    && match phase
       case Queued(r, attempt) => OnTheWay(setup, oracle, r, attempt)
       case Calling(r, attempt) => OnTheWay(setup, oracle, r, attempt)
       case Replied(r, attempt, reply) =>
         OnTheWay(setup, oracle, r, attempt) && reply == oracle(r.address, ChainOf(r), attempt)
       case Sleeping(r, attempt) => OnTheWay(setup, oracle, r, attempt + 1)
       case Refused(r, answer) => AnswerFits(setup, oracle, cancelled, r.address, |r.answers|, answer)
       case _ => true
  }

  ghost predicate StateFits(setup: Setup, oracle: Oracle, s: State) {
    && (forall i :: 0 <= i < |s.workers| ==>
          PhaseOk(setup, s.workers[i]) && PhaseFits(setup, oracle, s.cancelled, s.workers[i]))
    && (forall i :: 0 <= i < |s.buffer| ==> AnswersFit(setup, oracle, s.cancelled, s.buffer[i]))
    && (forall i :: 0 <= i < |s.collected| ==> AnswersFit(setup, oracle, s.cancelled, s.collected[i]))
  }

  lemma {:induction false} AnswerExtends(setup: Setup, oracle: Oracle, cancelled: bool, r: Result, answer: Reply)
    requires |r.answers| < |ChainsFor(r.address.kind)| && AnswersFit(setup, oracle, cancelled, r)
    requires AnswerFits(setup, oracle, cancelled, r.address, |r.answers|, answer)
    ensures AnswersFit(setup, oracle, cancelled, WithAnswer(r, answer))
    ensures AnswersFit(setup, oracle, cancelled, WithAnswer(r, answer).(pause := true))
  {}

  // One reply: it is the answer, or the attempts after it come to the same.
  lemma {:induction false} ReplyDecides(setup: Setup, oracle: Oracle, r: Result, attempt: nat)
    requires |r.answers| < |ChainsFor(r.address.kind)| && attempt <= setup.policy.maxRetries
    requires OnTheWay(setup, oracle, r, attempt)
    ensures match Judge(ChainOf(r), attempt, setup.policy, oracle(r.address, ChainOf(r), attempt))
            case Accept =>
              Expected(setup, oracle, r.address, ChainOf(r)) == oracle(r.address, ChainOf(r), attempt)
            case Refuse(error) => Expected(setup, oracle, r.address, ChainOf(r)) == Classified(error)
            case Again(_) => OnTheWay(setup, oracle, r, attempt + 1)
  {}

  lemma {:induction false} PhaseKeepsFit(setup: Setup, oracle: Oracle, s: State, phase: Phase, input: Input)
    requires PhaseOk(setup, phase) && WorkerEnabled(setup, s, phase) && PhaseFits(setup, oracle, s.cancelled, phase)
    requires phase.Calling? ==> input.reply == oracle(phase.result.address, ChainOf(phase.result), phase.attempt)
    ensures PhaseOk(setup, Advance(setup, s, phase, input))
    ensures PhaseFits(setup, oracle, s.cancelled, Advance(setup, s, phase, input))
  {
    AdvanceKeepsPhaseOk(setup, s, phase, input);
    match phase {
      case Next(r) =>
        if |r.answers| < |ChainsFor(r.address.kind)| && ChainOf(r) !in setup.providers {
          AnswerExtends(setup, oracle, s.cancelled, r, Unconfigured());
        }
      case Replied(r, attempt, reply) =>
        ReplyDecides(setup, oracle, r, attempt);
        if reply.Balance? { AnswerExtends(setup, oracle, s.cancelled, r, reply); }
      case Refused(r, answer) => AnswerExtends(setup, oracle, s.cancelled, r, answer);
      case _ =>
    }
  }

  lemma {:induction false} CancellingKeepsFit(setup: Setup, oracle: Oracle, s: State)
    requires StateFits(setup, oracle, s)
    ensures StateFits(setup, oracle, s.(cancelled := true))
  {}

  lemma {:induction false} StepKeepsFit(setup: Setup, oracle: Oracle, s: State, actor: Actor, input: Input)
    requires StateFits(setup, oracle, s) && Enabled(setup, s, actor) && InputFits(setup, s, actor, input, oracle)
    ensures StateFits(setup, oracle, Apply(setup, s, actor, input))
  {
    match actor {
      case Worker(i) => PhaseKeepsFit(setup, oracle, s, s.workers[i], input);
      case Canceller => CancellingKeepsFit(setup, oracle, s);
      case _ =>
    }
  }

  // Whatever the interleaving, each answer is the expected one, unless the batch was cancelled.
  lemma {:induction false} EveryScheduleFits(setup: Setup, oracle: Oracle, s: State, schedule: seq<(Actor, Input)>)
    requires StateFits(setup, oracle, s) && Allowed(setup, s, schedule) && Follows(setup, s, schedule, oracle)
    ensures StateFits(setup, oracle, After(setup, s, schedule))
    decreases |schedule|
  {
    if schedule != [] {
      var (actor, input) := schedule[0];
      StepKeepsFit(setup, oracle, s, actor, input);
      EveryScheduleFits(setup, oracle, Apply(setup, s, actor, input), schedule[1..]);
    }
  }

  lemma {:induction false} StartFits(setup: Setup, oracle: Oracle, addresses: seq<Address>, width: nat,
                                     health: H.Book)
    ensures StateFits(setup, oracle, Start(addresses, width, health))
  {}
}
