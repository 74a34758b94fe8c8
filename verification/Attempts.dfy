// One provider check with bounded retries under a per-chain semaphore.
module Attempts {
  import opened Domain
  import Health

  datatype Policy = Policy(maxRetries: nat, baseDelay: nat)

  datatype Verdict = Accept | Refuse(error: ProviderError) | Again(delay: int)

  // The scanner's decision after one provider call.
  function Judge(chain: Chain, attempt: nat, policy: Policy, reply: Reply): Verdict {
    if reply.Balance? then Accept else
      var error := AsProviderError(reply, chain, false);
      if !error.temporary || attempt == policy.maxRetries then Refuse(error)
      else if error.retryAfter > 0 then Again(error.retryAfter)
      else Again(policy.baseDelay * Pow2(attempt))
  }

  // A wait the scanner chooses itself, as opposed to one the provider asked for.
  function OwnWait(chain: Chain, attempt: nat, policy: Policy, reply: Reply): nat {
    if reply.Balance? || AsProviderError(reply, chain, false).retryAfter > 0 then 0
    else policy.baseDelay * Pow2(attempt)
  }

  // The waits after the first n replies.
  function OwnWaits(chain: Chain, policy: Policy, provider: nat -> Reply, n: nat): nat {
    if n == 0 then 0
    else OwnWaits(chain, policy, provider, n - 1) + OwnWait(chain, n - 1, policy, provider(n - 1))
  }

  predicate IsTemporary(reply: Reply) {
    reply.Classified? && reply.error.temporary
  }

  lemma {:induction false} DoublingAdds(base: int, p: int)
    ensures base * (2 * p - 1) == base * (p - 1) + base * p
  {}

  lemma {:induction false} OwnWaitsBounded(chain: Chain, policy: Policy, provider: nat -> Reply, n: nat)
    ensures OwnWaits(chain, policy, provider, n) <= policy.baseDelay * (Pow2(n) - 1)
  {
    if n > 0 {
      OwnWaitsBounded(chain, policy, provider, n - 1);
      DoublingAdds(policy.baseDelay, Pow2(n - 1));
    }
  }

  // No more waits than the policy has retries.
  lemma {:induction false} WaitsWithinPolicy(chain: Chain, policy: Policy, provider: nat -> Reply, n: nat)
    requires n <= policy.maxRetries
    ensures OwnWaits(chain, policy, provider, n) <= policy.baseDelay * (Pow2(policy.maxRetries) - 1)
  {
    OwnWaitsBounded(chain, policy, provider, n);
    PowMonotone(policy.baseDelay, n, policy.maxRetries);
  }

  // What the attempts come to from the given one on, if nothing cancels them and the provider replies like this.
  function FinalAnswer(chain: Chain, policy: Policy, provider: nat -> Reply, attempt: nat): Reply
    decreases policy.maxRetries - attempt
  {
    match Judge(chain, attempt, policy, provider(attempt))
    case Accept => provider(attempt)
    case Refuse(error) => Classified(error)
    case Again(_) =>
      if attempt < policy.maxRetries then FinalAnswer(chain, policy, provider, attempt + 1)
      else Unclassified("unreachable retry state")
  }

  // The wait after a temporary error: what the provider asks for, or the base delay doubled with each attempt.
  function Delay(chain: Chain, policy: Policy, provider: nat -> Reply, attempt: nat): int
    requires IsTemporary(provider(attempt))
  {
    var asked := provider(attempt).error.retryAfter;
    if asked > 0 then asked else policy.baseDelay * Pow2(attempt)
  }

  // Each of the waits is the delay after its reply, which was a temporary error; folded.
  ghost predicate AreDelays(chain: Chain, policy: Policy, provider: nat -> Reply, waits: seq<int>) {
    forall depth {:trigger Looking(depth)} :: Looking(depth) && depth == 1 ==>
      forall i: nat :: i < |waits| ==> IsTemporary(provider(i)) && waits[i] == Delay(chain, policy, provider, i)
  }

  lemma {:induction false} DelaysExtend(chain: Chain, policy: Policy, provider: nat -> Reply, waits: seq<int>)
    requires AreDelays(chain, policy, provider, waits) && IsTemporary(provider(|waits|))
    ensures AreDelays(chain, policy, provider, waits + [Delay(chain, policy, provider, |waits|)])
  {
    assert Looking(1);
  }

  // The call reports its answer, whether it was cancelled, how many provider replies it saw, the waits between them,
  // of which the last is cut short by a cancellation, and the semaphore slots it still holds. The provider's reply to
  // each attempt is given.
  method CheckWithRetry(chain: Chain, policy: Policy, limited: bool, health: Health.HealthTracker,
                        provider: nat -> Reply, cancellable: bool)
    returns (answer: Reply, cancelled: bool, ghost calls: nat, ghost waits: seq<int>, ghost ownWaits: nat,
             ghost held: int)
    requires health.Valid()
    modifies health
    ensures health.Valid() && held == 0
    ensures calls <= policy.maxRetries + 1
    ensures cancelled ==> cancellable && answer.Unclassified?
    ensures cancelled ==> health.history == old(health.history) && health.states == old(health.states)
    ensures !cancelled ==> calls > 0 && answer == FinalAnswer(chain, policy, provider, 0)
    ensures !cancelled && provider(calls - 1).Balance? ==>
              && answer == provider(calls - 1)
              && health.history == old(health.history) + [Health.Success(chain)]
    ensures !cancelled && !provider(calls - 1).Balance? ==>
              && answer == Classified(AsProviderError(provider(calls - 1), chain, false))
              && (calls == policy.maxRetries + 1 || !IsTemporary(provider(calls - 1)))
              && health.history == old(health.history) + [Health.Failure(chain)]
    ensures |waits| == if cancelled then calls else calls - 1
    ensures AreDelays(chain, policy, provider, waits)
    ensures ownWaits == OwnWaits(chain, policy, provider, |waits|)
         <= policy.baseDelay * (Pow2(policy.maxRetries) - 1)
  {
    var attempt := 0;
    calls, waits, ownWaits, held := 0, [], 0, 0;
    while attempt <= policy.maxRetries
      invariant attempt <= policy.maxRetries
      invariant calls == attempt == |waits| && held == 0
      invariant AreDelays(chain, policy, provider, waits)
      invariant FinalAnswer(chain, policy, provider, 0) == FinalAnswer(chain, policy, provider, attempt)
      invariant ownWaits == OwnWaits(chain, policy, provider, attempt)
      invariant health.Valid() && health.history == old(health.history) && health.states == old(health.states)
    {
      cancelled := false;
      WaitsWithinPolicy(chain, policy, provider, attempt);
      if limited {
        cancelled := *;
        cancelled := cancelled && cancellable;
        if cancelled {
          answer := Unclassified("context canceled");
          return;
        }
        held := held + 1;
      }
      var reply := provider(attempt);
      if limited {
        held := held - 1;
      }
      calls := calls + 1;
      match Judge(chain, attempt, policy, reply) {
        case Accept =>
          var _ := health.Success(chain);
          answer := reply;
          return;
        case Refuse(error) =>
          var _ := health.Failure(chain);
          answer := Classified(error);
          return;
        case Again(delay) =>
          ownWaits := ownWaits + OwnWait(chain, attempt, policy, reply);
          DelaysExtend(chain, policy, provider, waits);
          waits := waits + [delay];
          WaitsWithinPolicy(chain, policy, provider, attempt + 1);
          cancelled := *;
          cancelled := cancelled && cancellable;
          if cancelled {
            answer := Unclassified("context canceled");
            return;
          }
      }
      attempt := attempt + 1;
    }
    assert false;
    answer, cancelled := Unclassified("unreachable retry state"), false;
  }

  lemma {:induction false} PowMonotone(base: nat, a: nat, b: nat)
    requires a <= b
    ensures base * (Pow2(a) - 1) <= base * (Pow2(b) - 1)
    decreases b - a
  {
    if a < b {
      PowMonotone(base, a + 1, b);
      DoublingAdds(base, Pow2(a));
    }
  }
}
