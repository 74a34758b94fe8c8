// The two clients of the limiter: the balance endpoint and the startup check. Both acquire, query, release.
module Clients {
  import opened Domain
  import opened InFlight
  import opened Tables
  import Spec = LimiterSpec

  // A provider's successful answer; the amount can be missing.
  datatype Quote = Quote(atomic: Option<int>, symbol: string, provider: string)

  // What a provider does with one query: after some time it answers, or fails with the error a reply carries.
  datatype Call = Call(quote: Quote, reply: Reply, took: nat)

  function Failure(call: Call, chain: Chain): Option<ProviderError> {
    if call.reply.Balance? then None else Some(AsProviderError(call.reply, chain, true))
  }

  predicate Retryable(call: Call, chain: Chain) {
    Failure(call, chain).Some? && Failure(call, chain).value.temporary
  }

  // Queries the provider while holding a grant, then gives that grant back, telling the limiter what happened:
  // the release found the grant outstanding for the chain it was acquired for, and the latency it was told
  // covers the time the provider took. Meanwhile the other clients run.
  method Query(limiter: Limiter, client: int, chain: Chain, token: nat, call: Call)
    returns (quote: Quote, failure: Option<ProviderError>, ghost before: Spec.State, ghost held: map<nat, string>,
             ghost outcome: Spec.Outcome, ghost r: Spec.Readings)
    requires limiter.Valid() && token in limiter.Hand(client) && limiter.Hand(client)[token] == ChainName(chain)
    modifies limiter
    ensures limiter.Valid() && limiter.Hand(client) == old(limiter.Hand(client)) - {token}
    ensures quote == call.quote && failure == Failure(call, chain)
    ensures Spec.Sound(before, held) && token in held && held[token] == ChainName(chain)
    ensures limiter.tokens == held - {token} && limiter.State() == Spec.Release(before, outcome, r)
    ensures outcome.chain == ChainName(chain) && outcome.retryable == Retryable(call, chain)
    ensures call.took <= outcome.latency <= limiter.clock - old(limiter.clock)
    ensures old(limiter.log) < limiter.log && limiter.log[|limiter.log| - 1] == Returned(client, outcome)
  {
    var started := limiter.ReadClock();
    limiter.Others(client);
    limiter.Sleep(call.took);
    quote, failure := call.quote, Failure(call, chain);
    var finished := limiter.ReadClock();
    var told := Spec.Outcome(ChainName(chain), failure.Some? && failure.value.temporary, finished - started);
    before, held, outcome := limiter.State(), limiter.tokens, told;
    r := limiter.Release(told, token);
  }

  // The chains have gauges of their own.
  lemma {:induction false} ChainNamesDiffer(a: Chain, b: Chain)
    ensures ChainName(a) == ChainName(b) <==> a == b
  {
    assert ChainName(a)[0] == ChainName(b)[0] <==> a == b || {a, b} == {Bitcoin, BSC};
    assert "btc"[1] != "bsc"[1];
  }

  // What a client's way through the limiter leaves in its log, in either case.

  ghost function Log(limiter: Limiter?): seq<Note>
    reads limiter
  {
    if limiter == null then [] else limiter.log
  }

  ghost predicate Refused(log: seq<Note>, from: nat, client: int, chain: Chain) {
    Found(log, from, client, ChainName(chain), false)
  }

  ghost predicate Served(log: seq<Note>, from: nat, client: int, chain: Chain, call: Call) {
    && Found(log, from, client, ChainName(chain), true)
    && Told(log, from, client, ChainName(chain), Retryable(call, chain), call.took)
  }

  // Waits for a grant and queries the provider, or is refused.
  method AcquireAndQuery(limiter: Limiter, client: int, chain: Chain, call: Call)
    returns (granted: bool, advice: int, quote: Quote, failure: Option<ProviderError>)
    requires limiter.Valid()
    modifies limiter
    ensures limiter.Valid() && limiter.Hand(client) == old(limiter.Hand(client)) && old(limiter.log) <= limiter.log
    ensures if granted then Served(limiter.log, |old(limiter.log)|, client, chain, call)
            else Refused(limiter.log, |old(limiter.log)|, client, chain)
    ensures granted ==> quote == call.quote && failure == Failure(call, chain)
    ensures !granted ==> advice == ADVICE
  {
    quote, failure := call.quote, None;
    var token;
    ghost var checks;
    granted, token, advice, checks := limiter.Acquire(ChainName(chain), client);
    if !granted { return; }
    ghost var acquired := limiter.log;
    ghost var before, held, outcome, r;
    quote, failure, before, held, outcome, r := Query(limiter, client, chain, token, call);
    NotesStay(acquired, limiter.log, |old(limiter.log)|, |old(limiter.log)|, client, ChainName(chain));
    assert Tells(limiter.log[|limiter.log| - 1], client, ChainName(chain), Retryable(call, chain), call.took);
  }

  // The balance endpoint, after the request has been decoded and validated.

  datatype Response =
    | Answer(atomic: int, symbol: string, hasBalance: bool)
    | TryAgain(code: string, provider: string, retryAfter: Option<int>)

  // What the caller learns of a query that was made.
  ghost predicate Conveys(response: Response, call: Call, chain: Chain) {
    && (response.Answer? <==> Failure(call, chain).None? && call.quote.atomic.Some?)
    && (response.Answer? ==>
          && Some(response.atomic) == call.quote.atomic && response.symbol == call.quote.symbol
          && (response.hasBalance <==> response.atomic > 0))
    && (response.TryAgain? && Failure(call, chain).Some? ==>
          var error := Failure(call, chain).value;
          && response.code == error.code && response.provider == error.provider
          && response.retryAfter == if !error.temporary then None
                                    else if error.retryAfter > 0 then Some(error.retryAfter) else Some(Spec.SECOND))
    && (response.TryAgain? && Failure(call, chain).None? ==>
          response == TryAgain("response_decode_error", ChainName(chain), None))
    && (call.reply.Unclassified? ==> response == TryAgain("rpc_error", ChainName(chain), Some(Spec.SECOND)))
  }

  // The provider's answer is conveyed if it was asked, and it was asked if the limiter had room. A client that holds
  // no grant when it comes holds none when it leaves, whichever way it leaves.
  method HandleBalance(limiter: Limiter?, client: int, providers: set<Chain>, chain: Chain, call: Call)
    returns (response: Response)
    requires limiter != null ==> limiter.Valid()
    modifies if limiter == null then {} else {limiter}
    ensures limiter != null ==> limiter.Valid() && limiter.Hand(client) == old(limiter.Hand(client))
    ensures chain !in providers ==> response == TryAgain("provider_unconfigured", ChainName(chain), None)
    ensures chain in providers && limiter == null ==> response == TryAgain("capacity_unavailable", "", None)
    ensures chain in providers && limiter != null ==> (
              || (&& Refused(limiter.log, |old(Log(limiter))|, client, chain)
                  && response == TryAgain("capacity_exhausted", "", Some(ADVICE)))
              || (&& Served(limiter.log, |old(Log(limiter))|, client, chain, call)
                  && Conveys(response, call, chain)))
  {
    if chain !in providers {
      return TryAgain("provider_unconfigured", ChainName(chain), None);
    }
    if limiter == null {
      return TryAgain("capacity_unavailable", "", None);
    }
    var granted, advice, quote, failure := AcquireAndQuery(limiter, client, chain, call);
    if !granted {
      return TryAgain("capacity_exhausted", "", Some(advice));
    }
    if failure.Some? {
      var error := failure.value;
      if !error.temporary {
        return TryAgain(error.code, error.provider, None);
      }
      return TryAgain(error.code, error.provider,
                      Some(if error.retryAfter <= 0 then Spec.SECOND else error.retryAfter));
    }
    if quote.atomic.None? {
      return TryAgain("response_decode_error", ChainName(chain), None);
    }
    return Answer(quote.atomic.value, quote.symbol, quote.atomic.value > 0);
  }

  // The startup check of one target.

  datatype BalanceCheck = BalanceCheck(key: Key, checked: bool, balance: Option<int>, symbol: string,
                           code: string, message: string, provider: string, retryMillis: Option<int>)

  // The schema's constraint on a stored record, where an empty symbol is stored as null.
  predicate Permitted(r: BalanceCheck) {
    && (r.balance.Some? ==> r.balance.value >= 0)
    && ((r.checked && r.balance.Some? && r.symbol != "") || (!r.checked && r.balance.None?))
  }

  // A missing wait stays missing and a short one is rounded up, so no client is told to retry at once.
  function DurationMillis(wait: int): (r: Option<int>)
    ensures r.Some? <==> wait > 0
    ensures r.Some? ==> r.value >= 1 && (r.value - 1) * Spec.MILLISECOND < wait
    ensures r.Some? && wait >= Spec.MILLISECOND ==> r.value * Spec.MILLISECOND <= wait
  {
    if wait <= 0 then None else Some(Max(wait / Spec.MILLISECOND, 1))
  }

  // A usable answer is a balance that is not negative, in a named currency.
  predicate Usable(call: Call, chain: Chain) {
    && Failure(call, chain).None?
    && call.quote.atomic.Some? && call.quote.atomic.value >= 0 && call.quote.symbol != ""
  }

  // What is recorded of a query that was made: a balance exactly if the provider gave a usable one.
  ghost predicate Records(record: BalanceCheck, call: Call) {
    var failure := Failure(call, record.key.chain);
    && (record.checked <==> Usable(call, record.key.chain))
    && (record.checked ==>
          && record.balance == call.quote.atomic && record.symbol == call.quote.symbol
          && record.provider == call.quote.provider && record.code == "" && record.retryMillis.None?)
    && (failure.Some? ==>
          && record.code == failure.value.code && record.provider == failure.value.provider
          && record.message == failure.value.message
          && record.retryMillis == DurationMillis(failure.value.retryAfter))
    && (call.reply.Unclassified? ==> record.code == "rpc_error" && record.provider == ChainName(record.key.chain))
    && (failure.None? && !record.checked ==> record.code == "response_decode_error" && record.retryMillis.None?)
  }

  // What is recorded without a query.
  predicate Declines(record: BalanceCheck, code: string, retryMillis: Option<int>) {
    && !record.checked && record.code == code && record.provider == ChainName(record.key.chain)
    && record.retryMillis == retryMillis
  }

  // The record is explained by the configuration, by a full limiter, or by what the provider did.
  ghost predicate Explained(record: BalanceCheck, key: Key, limited: bool, log: seq<Note>, from: nat, client: int,
                            providers: set<Chain>, call: Call) {
    && record.key == key && Permitted(record)
    && (!limited ==> Declines(record, "capacity_unavailable", None))
    && (limited && key.chain !in providers ==> Declines(record, "provider_unconfigured", None))
    && (limited && key.chain in providers ==>
          || (Refused(log, from, client, key.chain) && Declines(record, "capacity_exhausted", Some(250)))
          || (Served(log, from, client, key.chain, call) && Records(record, call)))
  }

  lemma {:induction false} ExplanationStays(record: BalanceCheck, key: Key, limited: bool, log: seq<Note>,
                                            longer: seq<Note>, from: nat, earlier: nat, client: int,
                                            providers: set<Chain>, call: Call)
    requires Explained(record, key, limited, log, from, client, providers, call)
    requires log <= longer && earlier <= from
    ensures Explained(record, key, limited, longer, earlier, client, providers, call)
  {
    NotesStay(log, longer, from, earlier, client, ChainName(key.chain));
  }

  method Check(limiter: Limiter?, client: int, providers: set<Chain>, key: Key, call: Call)
    returns (record: BalanceCheck)
    requires limiter != null ==> limiter.Valid()
    modifies if limiter == null then {} else {limiter}
    ensures limiter != null ==> limiter.Valid() && limiter.Hand(client) == old(limiter.Hand(client))
    ensures old(Log(limiter)) <= Log(limiter)
    ensures Explained(record, key, limiter != null, Log(limiter), |old(Log(limiter))|, client, providers, call)
  {
    record := BalanceCheck(key, false, None, "", "", "", ChainName(key.chain), None);
    if limiter == null {
      record := record.(code := "capacity_unavailable", message := "capacity controller unavailable");
      return;
    }
    if key.chain !in providers {
      record := record.(code := "provider_unconfigured", message := "provider is not configured");
      return;
    }
    var granted, advice, quote, failure := AcquireAndQuery(limiter, client, key.chain, call);
    if !granted {
      record := record.(code := "capacity_exhausted", message := "provider capacity is temporarily full",
                        retryMillis := DurationMillis(advice));
      return;
    }
    if failure.Some? {
      record := record.(code := failure.value.code, message := failure.value.message,
                        provider := failure.value.provider, retryMillis := DurationMillis(failure.value.retryAfter));
      return;
    }
    if quote.atomic.None? || quote.atomic.value < 0 || quote.symbol == "" {
      record := record.(code := "response_decode_error", message := "provider returned an invalid balance");
      return;
    }
    record := record.(checked := true, balance := quote.atomic, symbol := quote.symbol, provider := quote.provider);
  }

  // The whole startup check.

  // The six targets of a generated wallet, whose four addresses were stored in the order of Kinds.
  function Kinds(): seq<AddressType> { [BTC, EVM, SOL, TRX] }

  function Targets(ids: seq<int>): seq<Key>
    requires |ids| == |Kinds()|
  {
    [Key(ids[0], Bitcoin), Key(ids[1], Ethereum), Key(ids[1], Arbitrum), Key(ids[1], BSC),
     Key(ids[2], Solana), Key(ids[3], Tron)]
  }

  // Every chain of every stored address is a target, and none twice.
  lemma {:induction false} TargetsAreComplete(ids: seq<int>)
    requires |ids| == |Kinds()| && forall i, j :: 0 <= i < j < |ids| ==> ids[i] != ids[j]
    ensures forall i, j :: 0 <= i < j < |Targets(ids)| ==> Targets(ids)[i] != Targets(ids)[j]
    ensures forall i, c :: 0 <= i < |ids| ==> (c in ChainsFor(Kinds()[i]) <==> Key(ids[i], c) in Targets(ids))
  {
    forall i, c | 0 <= i < |ids|
      ensures c in ChainsFor(Kinds()[i]) <==> Key(ids[i], c) in Targets(ids)
    {
      var t := Targets(ids);
      assert t[0] in t && t[1] in t && t[2] in t && t[3] in t && t[4] in t && t[5] in t;
    }
  }

  function Below(n: nat): (r: set<nat>)
    ensures forall i: nat :: i in r <==> i < n
  {
    if n == 0 then {} else Below(n - 1) + {n - 1}
  }

  // One record per target, each written at its own place, in whatever order the checks finish. The calls say what
  // each target's provider does when it is asked.
  method CheckAll(limiter: Limiter?, client: int, providers: set<Chain>, targets: seq<Key>, calls: Key -> Call)
    returns (checks: array<BalanceCheck>)
    requires limiter != null ==> limiter.Valid()
    modifies if limiter == null then {} else {limiter}
    ensures limiter != null ==> limiter.Valid() && limiter.Hand(client) == old(limiter.Hand(client))
    ensures fresh(checks) && checks.Length == |targets|
    ensures forall i :: 0 <= i < |targets| ==>
              Explained(checks[i], targets[i], limiter != null, Log(limiter), |old(Log(limiter))|, client, providers,
                        calls(targets[i]))
  {
    checks := new BalanceCheck[|targets|](_ => BalanceCheck(Key(0, Bitcoin), false, None, "", "", "", "", None));
    ghost var from := |Log(limiter)|;
    var waiting := Below(|targets|);
    while waiting != {}
      invariant forall i :: i in waiting ==> i < |targets|
      invariant limiter != null ==> limiter.Valid() && limiter.Hand(client) == old(limiter.Hand(client))
      invariant from <= |Log(limiter)|
      invariant forall i :: 0 <= i < |targets| && i !in waiting ==>
                  Explained(checks[i], targets[i], limiter != null, Log(limiter), from, client, providers,
                            calls(targets[i]))
    {
      var index :| index in waiting;
      ghost var before, written := Log(limiter), checks[..];
      checks[index] := Check(limiter, client, providers, targets[index], calls(targets[index]));
      forall i | 0 <= i < |targets| && i !in waiting - {index}
        ensures Explained(checks[i], targets[i], limiter != null, Log(limiter), from, client, providers,
                          calls(targets[i]))
      {
        if i == index {
          ExplanationStays(checks[i], targets[i], limiter != null, Log(limiter), Log(limiter), |before|, from, client,
                           providers, calls(targets[i]));
        } else {
          assert checks[i] == written[i];
          ExplanationStays(checks[i], targets[i], limiter != null, before, Log(limiter), from, from, client,
                           providers, calls(targets[i]));
        }
      }
      waiting := waiting - {index};
    }
  }

  // What the store holds after the records were offered to it, given what becomes of each call: a record is there
  // exactly if its call took effect.
  ghost predicate Stores(saved: map<Key, BalanceCheck>, checks: seq<BalanceCheck>, fates: nat -> Fate) {
    && (forall i: nat :: i < |checks| ==> (checks[i].key in saved <==> !fates(i).NotMade?))
    && (forall k :: k in saved ==> exists i: nat :: i < |checks| && saved[k] == checks[i] && k == checks[i].key)
  }

  // Every record is offered to the store; a failure is reported only after the last one.
  method SaveAll(checks: seq<BalanceCheck>, fates: nat -> Fate) returns (ok: bool, saved: map<Key, BalanceCheck>)
    requires forall i, j :: 0 <= i < j < |checks| ==> checks[i].key != checks[j].key
    ensures Stores(saved, checks, fates)
    ensures ok <==> forall i: nat :: i < |checks| ==> fates(i).Made?
  {
    ok, saved := true, map[];
    for i := 0 to |checks|
      invariant Stores(saved, checks[..i], fates)
      invariant ok <==> forall j: nat :: j < i ==> fates(j).Made?
    {
      StoresNext(saved, checks, fates, i);
      if !fates(i).NotMade? {
        saved := saved[checks[i].key := checks[i]];
      }
      ok := ok && fates(i).Made?;
    }
    assert checks[..|checks|] == checks;
  }

  lemma {:induction false} StoresNext(saved: map<Key, BalanceCheck>, checks: seq<BalanceCheck>, fates: nat -> Fate,
                                      i: nat)
    requires i < |checks| && Stores(saved, checks[..i], fates)
    requires forall i, j :: 0 <= i < j < |checks| ==> checks[i].key != checks[j].key
    ensures Stores(if fates(i).NotMade? then saved else saved[checks[i].key := checks[i]], checks[..i + 1], fates)
  {
    var saved' := if fates(i).NotMade? then saved else saved[checks[i].key := checks[i]];
    var checks' := checks[..i + 1];
    forall j: nat | j < i ensures checks'[j].key in saved' <==> !fates(j).NotMade? {
      assert checks[..i][j] == checks'[j];
    }
    forall k | k in saved' ensures exists j: nat :: j < |checks'| && saved'[k] == checks'[j] && k == checks'[j].key {
      if fates(i).NotMade? || k != checks[i].key {
        var j: nat :| j < i && saved[k] == checks[..i][j] && k == checks[..i][j].key;
        assert saved'[k] == checks'[j] && k == checks'[j].key;
      } else {
        assert saved'[k] == checks'[i];
      }
    }
    assert checks[i].key !in saved by {
      forall j: nat | j < i ensures checks[..i][j].key != checks[i].key {}
    }
  }

  // What the startup check leaves behind for the four stored addresses: every stored record belongs to a target and
  // is explained.
  ghost predicate Recorded(saved: map<Key, BalanceCheck>, ids: seq<int>, limited: bool, log: seq<Note>, from: nat,
                           client: int, providers: set<Chain>, calls: Key -> Call)
    requires |ids| == |Kinds()|
  {
    forall k :: k in saved ==>
      k in Targets(ids) && Explained(saved[k], k, limited, log, from, client, providers, calls(k))
  }

  lemma {:induction false} StoredIsRecorded(saved: map<Key, BalanceCheck>, ids: seq<int>, checks: seq<BalanceCheck>,
                                            fates: nat -> Fate, limited: bool, log: seq<Note>, from: nat, client: int,
                                            providers: set<Chain>, calls: Key -> Call)
    requires |ids| == |Kinds()| && Stores(saved, checks, fates) && |checks| == |Targets(ids)|
    requires forall i :: 0 <= i < |checks| ==>
               Explained(checks[i], Targets(ids)[i], limited, log, from, client, providers, calls(Targets(ids)[i]))
    ensures Recorded(saved, ids, limited, log, from, client, providers, calls)
    ensures forall i: nat :: i < |checks| ==> (Targets(ids)[i] in saved <==> !fates(i).NotMade?)
  {
    forall k | k in saved
      ensures k in Targets(ids) && Explained(saved[k], k, limited, log, from, client, providers, calls(k))
    {
      var i: nat :| i < |checks| && saved[k] == checks[i] && k == checks[i].key;
      assert Targets(ids)[i] in Targets(ids) && Targets(ids)[i] == k;
    }
  }

  // The whole startup check, given the ids of the stored addresses, what each provider does, and what becomes of each
  // store call: if it succeeds, every chain of every address has a stored record of its own, and every stored record
  // keeps to the schema and says what its provider did.
  method RunOnce(limiter: Limiter?, client: int, providers: set<Chain>, ids: seq<int>, calls: Key -> Call,
                 fates: nat -> Fate)
    returns (ok: bool, saved: map<Key, BalanceCheck>)
    requires limiter != null ==> limiter.Valid()
    requires forall i, j :: 0 <= i < j < |ids| ==> ids[i] != ids[j]
    modifies if limiter == null then {} else {limiter}
    ensures limiter != null ==> limiter.Valid() && limiter.Hand(client) == old(limiter.Hand(client))
    ensures |ids| != |Kinds()| ==> !ok && saved == map[]
    ensures |ids| == |Kinds()| ==> (
              && (ok <==> forall i: nat :: i < |Targets(ids)| ==> fates(i).Made?)
              && (forall i: nat :: i < |Targets(ids)| ==> (Targets(ids)[i] in saved <==> !fates(i).NotMade?))
              && Recorded(saved, ids, limiter != null, Log(limiter), |old(Log(limiter))|, client, providers, calls))
    ensures ok ==> forall i, c :: 0 <= i < |ids| && c in ChainsFor(Kinds()[i]) ==> Key(ids[i], c) in saved
  {
    ok, saved := false, map[];
    if |ids| != |Kinds()| {
      return;
    }
    ok, saved := CheckAndSave(limiter, client, providers, ids, calls, fates);
    if ok { AllAreStored(saved, ids, fates); }
  }

  method CheckAndSave(limiter: Limiter?, client: int, providers: set<Chain>, ids: seq<int>, calls: Key -> Call,
                      fates: nat -> Fate)
    returns (ok: bool, saved: map<Key, BalanceCheck>)
    requires limiter != null ==> limiter.Valid()
    requires |ids| == |Kinds()| && forall i, j :: 0 <= i < j < |ids| ==> ids[i] != ids[j]
    modifies if limiter == null then {} else {limiter}
    ensures limiter != null ==> limiter.Valid() && limiter.Hand(client) == old(limiter.Hand(client))
    ensures ok <==> forall i: nat :: i < |Targets(ids)| ==> fates(i).Made?
    ensures forall i: nat :: i < |Targets(ids)| ==> (Targets(ids)[i] in saved <==> !fates(i).NotMade?)
    ensures Recorded(saved, ids, limiter != null, Log(limiter), |old(Log(limiter))|, client, providers, calls)
  {
    var targets := Targets(ids);
    assert forall i, j :: 0 <= i < j < |targets| ==> targets[i] != targets[j] by { TargetsAreComplete(ids); }
    var checks := CheckAll(limiter, client, providers, targets, calls);
    ok, saved := SaveAll(checks[..], fates);
    StoredIsRecorded(saved, ids, checks[..], fates, limiter != null, Log(limiter), |old(Log(limiter))|, client,
                     providers, calls);
  }

  lemma {:induction false} AllAreStored(saved: map<Key, BalanceCheck>, ids: seq<int>, fates: nat -> Fate)
    requires |ids| == |Kinds()| && forall i, j :: 0 <= i < j < |ids| ==> ids[i] != ids[j]
    requires forall i: nat :: i < |Targets(ids)| ==> fates(i).Made?
    requires forall i: nat :: i < |Targets(ids)| ==> (Targets(ids)[i] in saved <==> !fates(i).NotMade?)
    ensures forall i, c :: 0 <= i < |ids| && c in ChainsFor(Kinds()[i]) ==> Key(ids[i], c) in saved
  {
    TargetsAreComplete(ids);
    forall k | k in Targets(ids) ensures k in saved {
      var i: nat :| i < |Targets(ids)| && Targets(ids)[i] == k;
      assert fates(i).Made?;
    }
  }
}
