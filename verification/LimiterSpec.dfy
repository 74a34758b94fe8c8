// The adaptive in-flight limiter: one global and one per-chain limit, adapted from request outcomes.
module LimiterSpec {
  import opened Domain

  type Time = int

  const MILLISECOND := 1_000_000
  const SECOND := 1_000_000_000

  datatype Config = Config(initial: int, max: int, queueWait: int, interval: int, target: int)

  datatype Outcome = Outcome(chain: string, retryable: bool, latency: nat)

  datatype Gauge = Gauge(limit: int, active: int, samples: nat, failures: nat, ewma: nat, adjustedAt: Time)

  datatype State = State(max: int, globalLimit: int, globalActive: int, queueWait: int, interval: int, target: int,
                         chains: map<string, Gauge>, global: Gauge)

  // A new limiter, with out-of-range settings clamped or replaced by defaults.
  function New(config: Config, now: Time): State {
    var max := Max(config.max, 1);
    var initial := Min(Max(config.initial, 1), max);
    State(max, initial, 0,
          if config.queueWait <= 0 then 250 * MILLISECOND else config.queueWait,
          if config.interval <= 0 then 5 * SECOND else config.interval,
          if config.target <= 0 then 800 * MILLISECOND else config.target,
          map[], Gauge(initial, 0, 0, 0, 0, now))
  }

  // Looking a chain up creates its gauge at the current global limit.
  function Touch(s: State, chain: string, now: Time): State {
    if chain in s.chains then s
    else s.(chains := s.chains[chain := Gauge(s.globalLimit, 0, 0, 0, 0, now)])
  }

  predicate HasCapacity(s: State, chain: string)
    requires chain in s.chains
  {
    s.globalActive < s.globalLimit && s.chains[chain].active < s.chains[chain].limit
  }

  function Take(s: State, chain: string): State
    requires chain in s.chains
  {
    s.(globalActive := s.globalActive + 1,
       chains := s.chains[chain := s.chains[chain].(active := s.chains[chain].active + 1)])
  }

  function UpdateStats(g: Gauge, outcome: Outcome): Gauge {
    g.(samples := g.samples + 1,
       failures := if outcome.retryable then g.failures + 1 else g.failures,
       ewma := NextEwma(g.ewma, outcome.latency))
  }

  function NextEwma(ewma: nat, latency: nat): nat {
    if ewma == 0 then latency else (4 * ewma + latency) / 5
  }

  function Shrunk(limit: int): int { Max(limit / 2, 1) }

  function Grown(limit: int, max: int): int { Min(limit + Max(limit / 5, 1), max) }

  // Whether an adjustment is due at the time seen.
  predicate Due(g: Gauge, interval: int, seen: Time) {
    g.samples >= 10 && seen - g.adjustedAt >= interval
  }

  function AdjustedLimit(g: Gauge, max: int, target: int): int {
    if g.failures > 0 || g.ewma > target * 2 then Shrunk(g.limit)
    else if g.ewma <= target then Grown(g.limit, max)
    else g.limit
  }

  function Adjust(s: State, g: Gauge, seen: Time, stamped: Time): Gauge {
    if !Due(g, s.interval, seen) then g
    else g.(limit := AdjustedLimit(g, s.max, s.target), samples := 0, failures := 0, adjustedAt := stamped)
  }

  // The clock readings of one release, in the order they are taken.
  datatype Readings = Readings(created: Time, globalSeen: Time, globalStamped: Time, chainSeen: Time,
                               chainStamped: Time)

  predicate Ordered(from: Time, r: Readings, to: Time) {
    from <= r.created <= r.globalSeen <= r.globalStamped <= r.chainSeen <= r.chainStamped <= to
  }

  function Less(n: int): int { if n > 0 then n - 1 else n }

  function Release(s: State, outcome: Outcome, r: Readings): State {
    var touched := Touch(s, outcome.chain, r.created);
    var gauge := touched.chains[outcome.chain];
    var global := Adjust(s, UpdateStats(s.global, outcome), r.globalSeen, r.globalStamped);
    var counted := UpdateStats(gauge.(active := Less(gauge.active)), outcome);
    var globalLimit :=
      if Due(UpdateStats(s.global, outcome), s.interval, r.globalSeen) then global.limit else s.globalLimit;
    touched.(globalActive := Less(s.globalActive), global := global, globalLimit := globalLimit,
             chains := touched.chains[outcome.chain := Adjust(s, counted, r.chainSeen, r.chainStamped)])
  }

  // The invariant, given the grants that are outstanding and the chain each was acquired for.

  function TokensOf(tokens: map<nat, string>, chain: string): set<nat> {
    set t | t in tokens && tokens[t] == chain
  }

  ghost predicate GaugeOk(s: State, g: Gauge) {
    1 <= g.limit <= s.max
  }

  ghost predicate Inv(s: State, tokens: map<nat, string>) {
    && 1 <= s.globalLimit <= s.max && s.global.limit == s.globalLimit
    && s.queueWait > 0 && s.interval > 0 && s.target > 0
    && s.globalActive == |tokens| <= s.max
    && (forall t :: t in tokens ==> tokens[t] in s.chains)
    && (forall c :: c in s.chains ==> GaugeOk(s, s.chains[c]) && s.chains[c].active == |TokensOf(tokens, c)|)
  }

  lemma {:induction false} NewHolds(config: Config, now: Time)
    ensures Inv(New(config, now), map[])
  {}

  lemma {:induction false} TouchKeepsInv(s: State, tokens: map<nat, string>, chain: string, now: Time)
    requires Inv(s, tokens)
    ensures Inv(Touch(s, chain, now), tokens)
  {
    if chain !in s.chains {
      assert TokensOf(tokens, chain) == {};
    }
  }

  lemma {:induction false} TokenAdded(tokens: map<nat, string>, token: nat, chain: string, c: string)
    requires token !in tokens
    ensures |TokensOf(tokens[token := chain], c)| == |TokensOf(tokens, c)| + if c == chain then 1 else 0
  {
    if c == chain {
      assert TokensOf(tokens[token := chain], c) == TokensOf(tokens, c) + {token};
    } else {
      assert TokensOf(tokens[token := chain], c) == TokensOf(tokens, c);
    }
  }

  lemma {:induction false} OneMoreToken(tokens: map<nat, string>, token: nat, chain: string)
    requires token !in tokens
    ensures |tokens[token := chain]| == |tokens| + 1
  {
    assert tokens[token := chain].Keys == tokens.Keys + {token};
  }

  lemma {:induction false} TokenRemoved(tokens: map<nat, string>, token: nat, c: string)
    requires token in tokens
    ensures |tokens - {token}| == |tokens| - 1
    ensures |TokensOf(tokens - {token}, c)| == |TokensOf(tokens, c)| - if c == tokens[token] then 1 else 0
  {
    assert tokens.Keys == (tokens - {token}).Keys + {token};
    if c == tokens[token] {
      assert TokensOf(tokens, c) == TokensOf(tokens - {token}, c) + {token};
    } else {
      assert TokensOf(tokens, c) == TokensOf(tokens - {token}, c);
    }
  }

  lemma {:induction false} TakeKeepsInv(s: State, tokens: map<nat, string>, chain: string, token: nat)
    requires Inv(s, tokens) && chain in s.chains && HasCapacity(s, chain) && token !in tokens
    ensures Inv(Take(s, chain), tokens[token := chain])
  {
    var after := Take(s, chain);
    OneMoreToken(tokens, token, chain);
    forall c | c in after.chains
      ensures GaugeOk(after, after.chains[c]) && after.chains[c].active == |TokensOf(tokens[token := chain], c)|
    {
      TokenAdded(tokens, token, chain, c);
    }
  }

  // A grant given back once, for the chain it was acquired for: neither guard against zero ever fires.
  lemma {:induction false} HeldTokenIsCounted(s: State, tokens: map<nat, string>, token: nat)
    requires Inv(s, tokens) && token in tokens
    ensures s.globalActive > 0 && tokens[token] in s.chains && s.chains[tokens[token]].active > 0
  {
    assert token in TokensOf(tokens, tokens[token]);
    assert token in tokens.Keys && |tokens.Keys| == |tokens|;
  }

  lemma {:induction false} ReleaseKeepsInv(s: State, tokens: map<nat, string>, token: nat, outcome: Outcome,
                                           r: Readings)
    requires Inv(s, tokens) && token in tokens && tokens[token] == outcome.chain
    ensures Inv(Release(s, outcome, r), tokens - {token})
    ensures Release(s, outcome, r).globalActive == s.globalActive - 1
  {
    HeldTokenIsCounted(s, tokens, token);
    var after := Release(s, outcome, r);
    TokenRemoved(tokens, token, outcome.chain);
    forall c | c in after.chains
      ensures GaugeOk(after, after.chains[c]) && after.chains[c].active == |TokensOf(tokens - {token}, c)|
    {
      TokenRemoved(tokens, token, c);
    }
  }

  // The global count is the sum of the chain counts.

  ghost function SumActive(s: State, names: set<string>): int
    requires names <= s.chains.Keys
  {
    if names == {} then 0
    else
      var name :| name in names;
      s.chains[name].active + SumActive(s, names - {name})
  }

  function TokensIn(tokens: map<nat, string>, names: set<string>): set<nat> {
    set t | t in tokens && tokens[t] in names
  }

  lemma {:induction false} SumIsTokens(s: State, tokens: map<nat, string>, names: set<string>)
    requires Inv(s, tokens) && names <= s.chains.Keys
    ensures SumActive(s, names) == |TokensIn(tokens, names)|
    decreases |names|
  {
    if names == {} {
      assert TokensIn(tokens, names) == {};
    } else {
      var name :| name in names && SumActive(s, names) == s.chains[name].active + SumActive(s, names - {name});
      SumIsTokens(s, tokens, names - {name});
      assert TokensIn(tokens, names) == TokensIn(tokens, names - {name}) + TokensOf(tokens, name);
      assert TokensIn(tokens, names - {name}) !! TokensOf(tokens, name);
    }
  }

  lemma {:induction false} GlobalIsSumOfChains(s: State, tokens: map<nat, string>)
    requires Inv(s, tokens)
    ensures s.globalActive == SumActive(s, s.chains.Keys) == |tokens| <= s.max
  {
    SumIsTokens(s, tokens, s.chains.Keys);
    assert TokensIn(tokens, s.chains.Keys) == tokens.Keys;
  }

  // The invariant, folded.

  ghost predicate Sound(s: State, tokens: map<nat, string>) {
    forall depth {:trigger Looking(depth)} :: Looking(depth) ==> Inv(s, tokens)
  }

  lemma {:induction false} Look(s: State, tokens: map<nat, string>)
    requires Sound(s, tokens)
    ensures Inv(s, tokens)
  {
    assert Looking(0);
  }

  lemma {:induction false} NewIsSound(config: Config, now: Time)
    ensures Sound(New(config, now), map[])
  {
    NewHolds(config, now);
  }

  lemma {:induction false} TouchIsSound(s: State, tokens: map<nat, string>, chain: string, now: Time)
    requires Sound(s, tokens)
    ensures Sound(Touch(s, chain, now), tokens)
    ensures chain in Touch(s, chain, now).chains && Touch(s, chain, now).chains[chain].limit >= 1 && s.globalLimit >= 1
  {
    Look(s, tokens);
    TouchKeepsInv(s, tokens, chain, now);
    assert GaugeOk(Touch(s, chain, now), Touch(s, chain, now).chains[chain]);
  }

  lemma {:induction false} TakeIsSound(s: State, tokens: map<nat, string>, chain: string, token: nat)
    requires Sound(s, tokens) && chain in s.chains && HasCapacity(s, chain) && token !in tokens
    ensures Sound(Take(s, chain), tokens[token := chain])
  {
    Look(s, tokens);
    TakeKeepsInv(s, tokens, chain, token);
  }

  lemma {:induction false} ReleaseIsSound(s: State, tokens: map<nat, string>, token: nat, outcome: Outcome, r: Readings)
    requires Sound(s, tokens) && token in tokens && tokens[token] == outcome.chain
    ensures Sound(Release(s, outcome, r), tokens - {token})
    ensures s.globalActive > 0 && outcome.chain in s.chains && s.chains[outcome.chain].active > 0
  {
    Look(s, tokens);
    HeldTokenIsCounted(s, tokens, token);
    ReleaseKeepsInv(s, tokens, token, outcome, r);
  }
}
