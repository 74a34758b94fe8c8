// How the limiter adapts, over single adjustments and over whole histories.
module LimiterLaws {
  import opened Domain
  import opened LimiterSpec

  // Shrinking and growing.

  function ShrunkTimes(limit: int, k: nat): int {
    if k == 0 then limit else Shrunk(ShrunkTimes(limit, k - 1))
  }

  function GrownTimes(limit: int, max: int, k: nat): int {
    if k == 0 then limit else Grown(GrownTimes(limit, max, k - 1), max)
  }

  lemma {:induction false} HalvingTwice(n: nat, d: nat)
    requires d >= 1
    ensures n / d / 2 == n / (2 * d)
  {
    var q := n / d;
    assert n == q * d + n % d;
    var h := q / 2;
    assert q == 2 * h + q % 2;
    assert n == h * (2 * d) + ((q % 2) * d + n % d) by {
      assert q * d == (2 * h + q % 2) * d == h * (2 * d) + (q % 2) * d;
    }
    var r := (q % 2) * d + n % d;
    assert 0 <= r < 2 * d;
    QuotientIsUnique(n, 2 * d, h, r);
  }

  lemma {:induction false} ProductGrows(p: nat, a: int, b: int)
    requires a <= b
    ensures p * a <= p * b
  {}

  lemma {:induction false} QuotientIsUnique(n: int, d: int, q: int, r: int)
    requires d > 0 && n == q * d + r && 0 <= r < d
    ensures n / d == q
  {
    var q', r' := n / d, n % d;
    assert n == d * q' + r';
    if q < q' { ProductGrows(d, q + 1, q'); }
    if q > q' { ProductGrows(d, q' + 1, q); }
  }

  // k shrinking adjustments in a row leave exactly the 2^k-th part, and never less than one.
  lemma {:induction false} ShrinkingHalvesEachTime(limit: int, k: nat)
    requires limit >= 1
    ensures ShrunkTimes(limit, k) == Max(limit / Pow2(k), 1)
  {
    if k > 0 {
      ShrinkingHalvesEachTime(limit, k - 1);
      HalvingTwice(limit, Pow2(k - 1));
    }
  }

  lemma {:induction false} GrownStaysInRange(limit: int, max: int, k: nat)
    requires 1 <= limit <= max
    ensures limit <= GrownTimes(limit, max, k) <= max
  {
    if k > 0 { GrownStaysInRange(limit, max, k - 1); }
  }

  lemma {:induction false} GrownTimesAdds(limit: int, max: int, a: nat, b: nat)
    ensures GrownTimes(limit, max, a + b) == GrownTimes(GrownTimes(limit, max, a), max, b)
  {
    if b > 0 { GrownTimesAdds(limit, max, a, b - 1); }
  }

  // Five growing adjustments in a row double the limit, unless they reach the maximum first.
  lemma {:induction false} FiveGrowthsDouble(limit: int, max: int)
    requires 1 <= limit <= max
    ensures GrownTimes(limit, max, 5) >= Min(2 * limit, max)
  {
    var a := Grown(limit, max);
    var b := Grown(a, max);
    var c := Grown(b, max);
    var d := Grown(c, max);
    var e := Grown(d, max);
    assert GrownTimes(limit, max, 1) == a;
    assert GrownTimes(limit, max, 2) == b;
    assert GrownTimes(limit, max, 3) == c;
    assert GrownTimes(limit, max, 4) == d;
    assert GrownTimes(limit, max, 5) == e;
  }

  // From any limit, 5 * n growing adjustments restore the maximum once 2^n covers it.
  lemma {:induction false} GrowthRestoresMax(limit: int, max: int, n: nat)
    requires 1 <= limit <= max && max <= Pow2(n) * limit
    ensures GrownTimes(limit, max, 5 * n) == max
    decreases n
  {
    if n > 0 {
      var next := GrownTimes(limit, max, 5);
      GrownStaysInRange(limit, max, 5);
      FiveGrowthsDouble(limit, max);
      DoublingHalvesTheRest(limit, next, max, Pow2(n - 1));
      GrowthRestoresMax(next, max, n - 1);
      GrownTimesAdds(limit, max, 5, 5 * (n - 1));
    }
  }

  lemma {:induction false} DoublingHalvesTheRest(limit: int, next: int, max: int, p: nat)
    requires p >= 1 && 1 <= max <= (2 * p) * limit && next >= Min(2 * limit, max)
    ensures max <= p * next
  {
    ProductGrows(p, Min(2 * limit, max), next);
    assert p * (2 * limit) == (2 * p) * limit;
    ProductGrows(max, 1, p);
  }

  // The moving average.

  function Ewma(ewma: nat, samples: seq<nat>): nat
    decreases |samples|
  {
    if samples == [] then ewma else Ewma(NextEwma(ewma, samples[0]), samples[1..])
  }

  // Starting fresh, the average stays between the least and the greatest sample.
  lemma {:induction false} EwmaStaysBetween(ewma: nat, samples: seq<nat>, low: nat, high: nat)
    requires forall i :: 0 <= i < |samples| ==> low <= samples[i] <= high
    requires low <= ewma <= high || (ewma == 0 && samples != [])
    ensures low <= Ewma(ewma, samples) <= high
    decreases |samples|
  {
    if samples != [] { EwmaStaysBetween(NextEwma(ewma, samples[0]), samples[1..], low, high); }
  }

  function Excess(ewma: nat, target: nat): nat { if ewma > target then ewma - target else 0 }

  // A sample within the target cuts any excess to at most four fifths.
  lemma {:induction false} GoodSampleCutsExcess(ewma: nat, sample: nat, target: nat)
    requires sample <= target
    ensures 5 * Excess(NextEwma(ewma, sample), target) <= 4 * Excess(ewma, target)
  {}

  // As many good samples as there was excess bring the average within the target for good.
  lemma {:induction false} GoodSamplesRemoveExcess(ewma: nat, samples: seq<nat>, target: nat)
    requires forall i :: 0 <= i < |samples| ==> samples[i] <= target
    requires |samples| >= Excess(ewma, target)
    ensures Ewma(ewma, samples) <= target
    decreases |samples|
  {
    if samples != [] {
      GoodSampleCutsExcess(ewma, samples[0], target);
      GoodSamplesRemoveExcess(NextEwma(ewma, samples[0]), samples[1..], target);
    }
  }

  // Histories. The clients release each grant once, with the chain they acquired it for.

  datatype Event =
    | Poll(chain: string, token: nat, now: Time)
    | Return(token: nat, outcome: Outcome, readings: Readings)
    | Register(chain: string, now: Time)

  datatype Use = Use(state: State, tokens: map<nat, string>, clock: Time, releases: nat, adjustments: nat)

  ghost predicate Enabled(u: Use, e: Event) {
    match e
    case Poll(_, token, now) => u.clock <= now && token !in u.tokens
    case Return(token, outcome, r) =>
      token in u.tokens && u.tokens[token] == outcome.chain && Ordered(u.clock, r, r.chainStamped)
    case Register(_, now) => u.clock <= now
  }

  ghost function Apply(u: Use, e: Event): Use
    requires Enabled(u, e)
  {
    match e
    case Poll(chain, token, now) =>
      var touched := Touch(u.state, chain, now);
      if HasCapacity(touched, chain)
      then u.(state := Take(touched, chain), tokens := u.tokens[token := chain], clock := now)
      else u.(state := touched, clock := now)
    case Return(token, outcome, r) =>
      var due := Due(UpdateStats(u.state.global, outcome), u.state.interval, r.globalSeen);
      Use(Release(u.state, outcome, r), u.tokens - {token}, r.chainStamped,
          u.releases + 1, u.adjustments + if due then 1 else 0)
    case Register(chain, now) => u.(state := Touch(u.state, chain, now), clock := now)
  }

  ghost predicate Legal(u: Use, events: seq<Event>)
    decreases |events|, 0
  {
    events == [] ||
    var n := |events| - 1;
    Legal(u, events[..n]) && Enabled(After(u, events[..n]), events[n])
  }

  ghost function After(u: Use, events: seq<Event>): Use
    requires Legal(u, events)
    decreases |events|, 1
  {
    if events == [] then u
    else
      var n := |events| - 1;
      Apply(After(u, events[..n]), events[n])
  }

  function Fresh(config: Config, now: Time): Use { Use(New(config, now), map[], now, 0, 0) }

  lemma {:induction false} StepKeepsInv(u: Use, e: Event)
    requires Inv(u.state, u.tokens) && Enabled(u, e)
    ensures Inv(Apply(u, e).state, Apply(u, e).tokens)
  {
    match e {
      case Poll(chain, token, now) =>
        TouchKeepsInv(u.state, u.tokens, chain, now);
        var touched := Touch(u.state, chain, now);
        if HasCapacity(touched, chain) { TakeKeepsInv(touched, u.tokens, chain, token); }
      case Return(token, outcome, r) => ReleaseKeepsInv(u.state, u.tokens, token, outcome, r);
      case Register(chain, now) => TouchKeepsInv(u.state, u.tokens, chain, now);
    }
  }

  // Whatever the interleaving: the counts agree with the outstanding grants and stay below the hard cap.
  lemma {:induction false} EveryHistoryIsSafe(config: Config, start: Time, events: seq<Event>)
    requires Legal(Fresh(config, start), events)
    ensures var u := After(Fresh(config, start), events);
            && Inv(u.state, u.tokens)
            && u.state.globalActive == SumActive(u.state, u.state.chains.Keys) == |u.tokens| <= u.state.max
  {
    var u := After(Fresh(config, start), events);
    if events == [] {
      NewHolds(config, start);
    } else {
      var n := |events| - 1;
      EveryHistoryIsSafe(config, start, events[..n]);
      StepKeepsInv(After(Fresh(config, start), events[..n]), events[n]);
    }
    GlobalIsSumOfChains(u.state, u.tokens);
  }

  // A setting in range is taken as it is; one out of range is clamped, or replaced by a default.
  lemma {:induction false} SettingsAreTaken(config: Config, now: Time)
    ensures var s := New(config, now);
            && (config.max >= 1 ==> s.max == config.max) && (config.max < 1 ==> s.max == 1)
            && (1 <= config.initial <= s.max ==> s.globalLimit == config.initial)
            && (config.initial < 1 ==> s.globalLimit == 1) && (config.initial > s.max ==> s.globalLimit == s.max)
            && (config.queueWait > 0 ==> s.queueWait == config.queueWait)
            && (config.interval > 0 ==> s.interval == config.interval)
            && (config.target > 0 ==> s.target == config.target)
            && (config.queueWait <= 0 ==> s.queueWait == 250_000_000)
            && (config.interval <= 0 ==> s.interval == 5_000_000_000)
            && (config.target <= 0 ==> s.target == 800_000_000)
            && s.globalActive == 0 && s.chains == map[] && s.global == Gauge(s.globalLimit, 0, 0, 0, 0, now)
  {}

  // What a release does to a limit: after ten samples and an interval it halves under strain, that is a failure or a
  // latency beyond twice the target, it grows by a fifth if all is calm, and stays in between.

  function CountedSamples(g: Gauge): nat { g.samples + 1 }

  function CountedFailures(g: Gauge, outcome: Outcome): nat { g.failures + if outcome.retryable then 1 else 0 }

  function AverageLatency(g: Gauge, outcome: Outcome): nat {
    if g.ewma == 0 then outcome.latency else (4 * g.ewma + outcome.latency) / 5
  }

  predicate IsDue(g: Gauge, interval: int, seen: Time) { CountedSamples(g) >= 10 && seen - g.adjustedAt >= interval }

  predicate Strained(g: Gauge, outcome: Outcome, target: int) {
    CountedFailures(g, outcome) > 0 || AverageLatency(g, outcome) > 2 * target
  }

  predicate Calm(g: Gauge, outcome: Outcome, target: int) {
    CountedFailures(g, outcome) == 0 && AverageLatency(g, outcome) <= target
  }

  ghost predicate AdjustsRightly(g: Gauge, after: Gauge, outcome: Outcome, s: State, seen: Time, stamped: Time) {
    && after.ewma == AverageLatency(g, outcome)
    && (if IsDue(g, s.interval, seen)
        then after.samples == 0 && after.failures == 0 && after.adjustedAt == stamped
        else && after.samples == CountedSamples(g) && after.failures == CountedFailures(g, outcome)
             && after.adjustedAt == g.adjustedAt)
    && (IsDue(g, s.interval, seen) && Strained(g, outcome, s.target) ==> after.limit == Max(g.limit / 2, 1))
    && (IsDue(g, s.interval, seen) && Calm(g, outcome, s.target) ==>
          after.limit == Min(g.limit + Max(g.limit / 5, 1), s.max))
    && (!(IsDue(g, s.interval, seen) && (Strained(g, outcome, s.target) || Calm(g, outcome, s.target))) ==>
          after.limit == g.limit)
  }

  lemma {:induction false} ReleaseAdjusts(s: State, tokens: map<nat, string>, token: nat, outcome: Outcome,
                                          r: Readings)
    requires Inv(s, tokens) && token in tokens && tokens[token] == outcome.chain
    ensures var after := Release(s, outcome, r);
            && AdjustsRightly(s.global, after.global, outcome, s, r.globalSeen, r.globalStamped)
            && after.globalLimit == after.global.limit
            && outcome.chain in s.chains && outcome.chain in after.chains
            && AdjustsRightly(s.chains[outcome.chain], after.chains[outcome.chain], outcome, s, r.chainSeen,
                              r.chainStamped)
            && (forall c :: c in s.chains && c != outcome.chain ==> c in after.chains && after.chains[c] == s.chains[c])
  {}

  // Every due adjustment of the history is a calm one, or every one is strained.

  predicate DueWith(u: Use, e: Event, calm: bool) {
    e.Return? && IsDue(u.state.global, u.state.interval, e.readings.globalSeen) ==>
      if calm then Calm(u.state.global, e.outcome, u.state.target)
      else Strained(u.state.global, e.outcome, u.state.target)
  }

  ghost predicate AllDue(u: Use, events: seq<Event>, calm: bool)
    requires Legal(u, events)
  {
    events == [] ||
    var n := |events| - 1;
    AllDue(u, events[..n], calm) && DueWith(After(u, events[..n]), events[n], calm)
  }

  ghost predicate MovesOnce(u: Use, after: Use, calm: bool) {
    && after.state.max == u.state.max && u.adjustments <= after.adjustments <= u.adjustments + 1
    && after.state.globalLimit
    == if after.adjustments == u.adjustments then u.state.globalLimit
       else if calm then Grown(u.state.globalLimit, u.state.max) else Shrunk(u.state.globalLimit)
  }

  // The limit has moved once for each adjustment.
  ghost predicate Moves(u: Use, after: Use, calm: bool) {
    && after.state.max == u.state.max && u.adjustments <= after.adjustments
    && after.state.globalLimit
    == if calm then GrownTimes(u.state.globalLimit, u.state.max, after.adjustments - u.adjustments)
       else ShrunkTimes(u.state.globalLimit, after.adjustments - u.adjustments)
  }

  lemma {:induction false} MovesAddUp(u: Use, mid: Use, after: Use, calm: bool)
    requires Moves(u, mid, calm) && MovesOnce(mid, after, calm)
    ensures Moves(u, after, calm)
  {}

  lemma {:induction false} StepAdjusts(u: Use, e: Event, calm: bool)
    requires Inv(u.state, u.tokens) && Enabled(u, e) && DueWith(u, e, calm)
    ensures MovesOnce(u, Apply(u, e), calm)
  {
    if e.Return? { ReleaseAdjusts(u.state, u.tokens, e.token, e.outcome, e.readings); }
  }

  lemma {:induction false} HistoryKeepsInv(u: Use, events: seq<Event>)
    requires Inv(u.state, u.tokens) && Legal(u, events)
    ensures Inv(After(u, events).state, After(u, events).tokens)
  {
    if events != [] {
      var n := |events| - 1;
      HistoryKeepsInv(u, events[..n]);
      StepKeepsInv(After(u, events[..n]), events[n]);
    }
  }

  // As long as every due adjustment is calm the limit grows with each of them, and as long as every one is strained
  // it is halved with each, whatever calls come and go in between.
  lemma {:induction false} AdjustmentsAddUp(u: Use, events: seq<Event>, calm: bool)
    requires Inv(u.state, u.tokens) && Legal(u, events) && AllDue(u, events, calm)
    ensures Moves(u, After(u, events), calm)
  {
    if events != [] {
      var n := |events| - 1;
      AdjustmentsAddUp(u, events[..n], calm);
      HistoryKeepsInv(u, events[..n]);
      StepAdjusts(After(u, events[..n]), events[n], calm);
      MovesAddUp(u, After(u, events[..n]), After(u, events), calm);
    }
  }

  lemma {:induction false} MaxStays(limit: int, max: int, a: nat, b: nat)
    requires 1 <= limit <= max && GrownTimes(limit, max, a) == max && a <= b
    ensures GrownTimes(limit, max, b) == max
    decreases b
  {
    if a < b { MaxStays(limit, max, a, b - 1); }
  }

  // A limit recovers: 5n calm adjustments in a history bring it back to the maximum once 2^n covers the ratio.
  lemma {:induction false} CalmHistoryRestoresMax(u: Use, events: seq<Event>, n: nat)
    requires Inv(u.state, u.tokens) && Legal(u, events) && AllDue(u, events, true)
    requires u.state.max <= Pow2(n) * u.state.globalLimit && After(u, events).adjustments - u.adjustments >= 5 * n
    ensures After(u, events).state.globalLimit == u.state.max
  {
    AdjustmentsAddUp(u, events, true);
    RestoredBy(u, After(u, events), n);
  }

  lemma {:induction false} RestoredBy(u: Use, after: Use, n: nat)
    requires Moves(u, after, true) && 1 <= u.state.globalLimit <= u.state.max
    requires u.state.max <= Pow2(n) * u.state.globalLimit && after.adjustments - u.adjustments >= 5 * n
    ensures after.state.globalLimit == u.state.max
  {
    EnoughGrowths(u.state.globalLimit, u.state.max, n, after.adjustments - u.adjustments);
  }

  lemma {:induction false} EnoughGrowths(limit: int, max: int, n: nat, k: nat)
    requires 1 <= limit <= max && max <= Pow2(n) * limit && 5 * n <= k
    ensures GrownTimes(limit, max, k) == max
  {
    GrowthRestoresMax(limit, max, n);
    MaxStays(limit, max, 5 * n, k);
  }

  // And k strained ones leave exactly the 2^k-th part, but at least one.
  lemma {:induction false} StrainedHistoryHalves(u: Use, events: seq<Event>)
    requires Inv(u.state, u.tokens) && Legal(u, events) && AllDue(u, events, false)
    ensures var after := After(u, events);
            && after.adjustments >= u.adjustments
            && after.state.globalLimit == Max(u.state.globalLimit / Pow2(after.adjustments - u.adjustments), 1)
  {
    AdjustmentsAddUp(u, events, false);
    HalvedBy(u, After(u, events));
  }

  lemma {:induction false} HalvedBy(u: Use, after: Use)
    requires Moves(u, after, false) && u.state.globalLimit >= 1
    ensures after.adjustments >= u.adjustments
    ensures after.state.globalLimit == Max(u.state.globalLimit / Pow2(after.adjustments - u.adjustments), 1)
  {
    ShrinkingHalvesEachTime(u.state.globalLimit, after.adjustments - u.adjustments);
  }

  // Such a recovery is always possible: from any idle limiter without strain, by calls on any chain.

  ghost predicate Rested(u: Use) {
    && Inv(u.state, u.tokens) && u.tokens == map[]
    && u.state.global.failures == 0 && u.state.global.ewma <= u.state.target
  }

  // A call that returns at once, after any interval has passed.
  function Pause(u: Use): Time { Max(u.clock, u.state.global.adjustedAt + u.state.interval) }

  function CalmReturn(u: Use, chain: string): Event {
    var at := Pause(u);
    Return(0, Outcome(chain, false, 0), Readings(at, at, at, at, at))
  }

  lemma {:induction false} CalmPoll(u: Use, chain: string)
    requires Rested(u)
    ensures Enabled(u, Poll(chain, 0, u.clock))
    ensures var next := Apply(u, Poll(chain, 0, u.clock));
            && Inv(next.state, next.tokens) && next.tokens == map[0 := chain] && next.state.global == u.state.global
            && next.adjustments == u.adjustments && next.clock == u.clock
            && next.state.interval == u.state.interval && next.state.target == u.state.target
            && next.state.max == u.state.max
  {
    StepKeepsInv(u, Poll(chain, 0, u.clock));
    TouchKeepsInv(u.state, u.tokens, chain, u.clock);
    var touched := Touch(u.state, chain, u.clock);
    assert GaugeOk(touched, touched.chains[chain]);
    assert TokensOf(u.tokens, chain) == {};
  }

  lemma {:induction false} CalmPair(u: Use, chain: string) returns (mid: Use, after: Use)
    requires Rested(u)
    ensures Enabled(u, Poll(chain, 0, u.clock)) && mid == Apply(u, Poll(chain, 0, u.clock))
    ensures Enabled(mid, CalmReturn(u, chain)) && after == Apply(mid, CalmReturn(u, chain))
    ensures DueWith(u, Poll(chain, 0, u.clock), true) && DueWith(mid, CalmReturn(u, chain), true)
    ensures Rested(after) && after.state.max == u.state.max
    ensures if u.state.global.samples >= 9 then after.adjustments == u.adjustments + 1
            else after.adjustments == u.adjustments && after.state.global.samples == u.state.global.samples + 1
  {
    CalmPoll(u, chain);
    mid := Apply(u, Poll(chain, 0, u.clock));
    after := Apply(mid, CalmReturn(u, chain));
    StepKeepsInv(mid, CalmReturn(u, chain));
    assert mid.tokens - {0} == map[];
  }

  lemma {:induction false} TwoMore(u: Use, events: seq<Event>, e: Event, f: Event)
    requires Legal(u, events) && AllDue(u, events, true)
    requires Enabled(After(u, events), e) && DueWith(After(u, events), e, true)
    requires Enabled(Apply(After(u, events), e), f) && DueWith(Apply(After(u, events), e), f, true)
    ensures Legal(u, events + [e] + [f]) && AllDue(u, events + [e] + [f], true)
    ensures After(u, events + [e] + [f]) == Apply(Apply(After(u, events), e), f)
  {
    HistoryExtends(u, events, e);
    HistoryExtends(u, events + [e], f);
    assert (events + [e])[..|events|] == events;
    assert (events + [e] + [f])[..|events + [e]|] == events + [e];
  }

  lemma {:induction false} CalmAdjustments(u: Use, events: seq<Event>, chain: string, k: nat)
    returns (longer: seq<Event>)
    requires Legal(u, events) && AllDue(u, events, true) && Rested(After(u, events))
    ensures Legal(u, longer) && AllDue(u, longer, true) && Rested(After(u, longer))
    ensures After(u, longer).adjustments == After(u, events).adjustments + k
    decreases k, if After(u, events).state.global.samples <= 9 then 9 - After(u, events).state.global.samples else 0
  {
    if k == 0 {
      longer := events;
    } else {
      var now := After(u, events);
      var mid, after := CalmPair(now, chain);
      TwoMore(u, events, Poll(chain, 0, now.clock), CalmReturn(now, chain));
      var more := events + [Poll(chain, 0, now.clock)] + [CalmReturn(now, chain)];
      longer := CalmAdjustments(u, more, chain, if now.state.global.samples >= 9 then k - 1 else k);
    }
  }

  lemma {:induction false} PowersReach(n: nat)
    ensures n <= Pow2(n)
  {
    if n > 0 { PowersReach(n - 1); }
  }

  lemma {:induction false} LimitRecovers(u: Use, chain: string) returns (events: seq<Event>)
    requires Rested(u)
    ensures Legal(u, events) && After(u, events).state.globalLimit == u.state.max
  {
    var n := u.state.max;
    events := CalmAdjustments(u, [], chain, 5 * n);
    PowersReach(n);
    ProductGrows(Pow2(n), 1, u.state.globalLimit);
    CalmHistoryRestoresMax(u, events, n);
  }

  // A limit that shrank below the number of calls in flight lets no new call in.
  lemma {:induction false} OverloadNeverGrows(u: Use, e: Event)
    requires Inv(u.state, u.tokens) && Enabled(u, e) && u.state.globalActive >= u.state.globalLimit
    ensures Apply(u, e).state.globalActive <= u.state.globalActive
  {
    if e.Return? { ReleaseKeepsInv(u.state, u.tokens, e.token, e.outcome, e.readings); }
  }

  // When more calls are in flight than a limit allows. Only a limit that shrinks can bring it about.

  predicate Shrinks(g: Gauge, target: int) { g.failures > 0 || g.ewma > 2 * target }

  // From within the global limit, one step leads beyond it exactly if it is a release that makes an adjustment due,
  // the adjustment halves the limit, and the half is less than what stays in flight.
  lemma {:induction false} GlobalOverrunIff(u: Use, e: Event)
    requires Inv(u.state, u.tokens) && Enabled(u, e) && u.state.globalActive <= u.state.globalLimit
    ensures var s, after := u.state, Apply(u, e).state;
            after.globalActive > after.globalLimit <==> (
              && e.Return?
              && var counted := UpdateStats(s.global, e.outcome);
              && Due(counted, s.interval, e.readings.globalSeen) && Shrinks(counted, s.target)
              && s.globalActive - 1 > Max(s.globalLimit / 2, 1))
  {
    if e.Return? { HeldTokenIsCounted(u.state, u.tokens, e.token); }
  }

  // The same for the calls and the limit of one chain.
  lemma {:induction false} ChainOverrunIff(u: Use, e: Event, chain: string)
    requires Inv(u.state, u.tokens) && Enabled(u, e) && chain in u.state.chains
    requires u.state.chains[chain].active <= u.state.chains[chain].limit
    ensures chain in Apply(u, e).state.chains
    ensures var s, g, after := u.state, u.state.chains[chain], Apply(u, e).state.chains[chain];
            after.active > after.limit <==> (
              && e.Return? && e.outcome.chain == chain
              && var counted := UpdateStats(g, e.outcome);
              && Due(counted, s.interval, e.readings.chainSeen) && Shrinks(counted, s.target)
              && g.active - 1 > Max(g.limit / 2, 1))
  {
    if e.Return? { HeldTokenIsCounted(u.state, u.tokens, e.token); }
  }

  // It does happen, on any chain and from any time on: three calls at a limit of three, nine failed ones replaced
  // by new ones, and a tenth failure.

  const TIGHT := Config(3, 3, 0, 0, 0)

  function Failed(chain: string): Outcome { Outcome(chain, true, 1) }

  function Times(at: Time): Readings { Readings(at, at, at, at, at) }

  function GaugeAfter(active: nat, failures: nat, start: Time): Gauge {
    Gauge(3, active, failures, failures, if failures == 0 then 0 else 1, start)
  }

  function Filled(chain: string, start: Time, active: nat, failures: nat): State {
    New(TIGHT, start).(globalActive := active, chains := map[chain := GaugeAfter(active, failures, start)],
                       global := GaugeAfter(0, failures, start))
  }

  // The first so many tokens.
  function Handed(chain: string, n: nat): (tokens: map<nat, string>)
    ensures forall t: nat :: t in tokens <==> t < n
  {
    if n == 0 then map[] else Handed(chain, n - 1)[n - 1 := chain]
  }

  function Busy(chain: string, start: Time, failures: nat): Use {
    Use(Filled(chain, start, 3, failures), Handed(chain, 3), start, failures, 0)
  }

  function Freed(chain: string, start: Time, failures: nat): Use {
    Use(Filled(chain, start, 2, failures), Handed(chain, 2), start, failures, 0)
  }

  lemma {:induction false} HistoryExtends(u: Use, events: seq<Event>, e: Event)
    requires Legal(u, events) && Enabled(After(u, events), e)
    ensures Legal(u, events + [e]) && After(u, events + [e]) == Apply(After(u, events), e)
  {
    assert (events + [e])[..|events|] == events;
  }

  lemma {:induction false} CallIsTaken(chain: string, start: Time, active: nat, failures: nat)
    requires active < 3
    ensures var s := Filled(chain, start, active, failures);
            HasCapacity(s, chain) && Take(s, chain) == Filled(chain, start, active + 1, failures)
    ensures Handed(chain, active)[active := chain] == Handed(chain, active + 1)
  {
    var s := Filled(chain, start, active, failures);
    assert s.chains[chain := GaugeAfter(active + 1, failures, start)]
        == map[chain := GaugeAfter(active + 1, failures, start)];
  }

  lemma {:induction false} PollTakes(chain: string, start: Time, active: nat, failures: nat)
    requires active < 3
    ensures var u := Use(Filled(chain, start, active, failures), Handed(chain, active), start, failures, 0);
            && Enabled(u, Poll(chain, active, start))
            && Apply(u, Poll(chain, active, start))
            == Use(Filled(chain, start, active + 1, failures), Handed(chain, active + 1), start, failures, 0)
  {
    CallIsTaken(chain, start, active, failures);
  }

  lemma {:induction false} FirstPoll(chain: string, start: Time)
    ensures Touch(New(TIGHT, start), chain, start) == Filled(chain, start, 0, 0) && Handed(chain, 0) == map[]
  {}

  lemma {:induction false} ThreeCalls(chain: string, start: Time) returns (events: seq<Event>)
    ensures Legal(Fresh(TIGHT, start), events) && After(Fresh(TIGHT, start), events) == Busy(chain, start, 0)
  {
    var u := Fresh(TIGHT, start);
    FirstPoll(chain, start);
    HistoryExtends(u, [], Register(chain, start));
    events := [] + [Register(chain, start)];
    PollTakes(chain, start, 0, 0);
    HistoryExtends(u, events, Poll(chain, 0, start));
    events := events + [Poll(chain, 0, start)];
    PollTakes(chain, start, 1, 0);
    HistoryExtends(u, events, Poll(chain, 1, start));
    events := events + [Poll(chain, 1, start)];
    PollTakes(chain, start, 2, 0);
    HistoryExtends(u, events, Poll(chain, 2, start));
    events := events + [Poll(chain, 2, start)];
  }

  lemma {:induction false} GaugeLearns(chain: string, active: nat, failures: nat, start: Time)
    ensures UpdateStats(GaugeAfter(active, failures, start), Failed(chain)) == GaugeAfter(active, failures + 1, start)
  {}

  lemma {:induction false} FailureIsCounted(chain: string, start: Time, failures: nat)
    requires failures < 9
    ensures Release(Filled(chain, start, 3, failures), Failed(chain), Times(start))
         == Filled(chain, start, 2, failures + 1)
  {
    GaugeLearns(chain, 2, failures, start);
    GaugeLearns(chain, 0, failures, start);
    var s, after := Filled(chain, start, 3, failures), GaugeAfter(2, failures + 1, start);
    assert s.chains[chain].(active := 2) == GaugeAfter(2, failures, start);
    assert s.chains[chain := after] == map[chain := after];
  }

  lemma {:induction false} CallFails(chain: string, start: Time, failures: nat)
    requires failures < 9
    ensures Enabled(Busy(chain, start, failures), Return(2, Failed(chain), Times(start)))
    ensures Apply(Busy(chain, start, failures), Return(2, Failed(chain), Times(start)))
         == Freed(chain, start, failures + 1)
  {
    FailureIsCounted(chain, start, failures);
    assert Handed(chain, 3) - {2} == Handed(chain, 2);
  }

  lemma {:induction false} Failures(chain: string, start: Time, n: nat) returns (events: seq<Event>)
    requires n <= 9
    ensures Legal(Fresh(TIGHT, start), events) && After(Fresh(TIGHT, start), events) == Busy(chain, start, n)
  {
    if n == 0 {
      events := ThreeCalls(chain, start);
    } else {
      events := Failures(chain, start, n - 1);
      CallFails(chain, start, n - 1);
      HistoryExtends(Fresh(TIGHT, start), events, Return(2, Failed(chain), Times(start)));
      events := events + [Return(2, Failed(chain), Times(start))];
      PollTakes(chain, start, 2, n);
      HistoryExtends(Fresh(TIGHT, start), events, Poll(chain, 2, start));
      events := events + [Poll(chain, 2, start)];
    }
  }

  lemma {:induction false} LastFailure(chain: string, start: Time)
    ensures var last := Return(2, Failed(chain), Times(start + 5 * SECOND));
            && Enabled(Busy(chain, start, 9), last)
            && var s := Apply(Busy(chain, start, 9), last).state;
            && s.globalActive == 2 > s.globalLimit == 1
            && chain in s.chains && s.chains[chain].active == 2 > s.chains[chain].limit == 1
  {
    GaugeLearns(chain, 2, 9, start);
    GaugeLearns(chain, 0, 9, start);
    assert Filled(chain, start, 3, 9).chains[chain].(active := 2) == GaugeAfter(2, 9, start);
  }

  lemma {:induction false} OverrunHappens(chain: string, start: Time) returns (events: seq<Event>)
    ensures Legal(Fresh(TIGHT, start), events)
    ensures var s := After(Fresh(TIGHT, start), events).state;
            && s.globalActive == 2 > s.globalLimit == 1
            && chain in s.chains && s.chains[chain].active == 2 > s.chains[chain].limit == 1
  {
    events := Failures(chain, start, 9);
    LastFailure(chain, start);
    var last := Return(2, Failed(chain), Times(start + 5 * SECOND));
    HistoryExtends(Fresh(TIGHT, start), events, last);
    events := events + [last];
  }

  // Pace and reach of the global adjustments.

  ghost predicate Paced(u: Use, start: Time, initial: int) {
    && 10 * u.adjustments + u.state.global.samples <= u.releases
    && start + u.adjustments * u.state.interval <= u.state.global.adjustedAt <= u.clock
    && Max(initial / Pow2(u.adjustments), 1) <= u.state.globalLimit <= Min(initial * Pow2(u.adjustments), u.state.max)
  }

  lemma {:induction false} AdjustmentWithinFactorTwo(g: Gauge, max: int, target: int, low: int, high: int)
    requires 1 <= g.limit <= max && Max(low, 1) <= g.limit <= high && 0 <= low
    ensures Max(low / 2, 1) <= AdjustedLimit(g, max, target) <= Min(2 * high, max)
  {}

  lemma {:induction false} ProductDoubles(n: int, p: int)
    ensures n * (2 * p) == 2 * (n * p)
  {}

  lemma {:induction false} OneAdjustmentIsBounded(g: Gauge, max: int, target: int, initial: nat, p: nat)
    requires p >= 1 && 1 <= g.limit <= max
    requires Max(initial / p, 1) <= g.limit <= initial * p
    ensures Max(initial / (2 * p), 1) <= AdjustedLimit(g, max, target) <= Min(initial * (2 * p), max)
  {
    var low, high := initial / p, initial * p;
    HalvingTwice(initial, p);
    ProductDoubles(initial, p);
    AdjustmentWithinFactorTwo(g, max, target, low, high);
  }

  lemma {:induction false} ReturnKeepsPace(u: Use, e: Event, start: Time, initial: int)
    requires Inv(u.state, u.tokens) && Enabled(u, e) && e.Return? && Paced(u, start, initial) && 1 <= initial
    ensures Paced(Apply(u, e), start, initial)
  {
    var counted := UpdateStats(u.state.global, e.outcome);
    if Due(counted, u.state.interval, e.readings.globalSeen) {
      OneAdjustmentIsBounded(counted, u.state.max, u.state.target, initial, Pow2(u.adjustments));
      assert (u.adjustments + 1) * u.state.interval == u.adjustments * u.state.interval + u.state.interval;
    }
  }

  lemma {:induction false} StartIsPaced(config: Config, start: Time)
    ensures Paced(Fresh(config, start), start, New(config, start).globalLimit)
  {}

  lemma {:induction false} StepKeepsPace(u: Use, e: Event, start: Time, initial: int)
    requires Inv(u.state, u.tokens) && Enabled(u, e) && Paced(u, start, initial) && 1 <= initial
    ensures Paced(Apply(u, e), start, initial)
  {
    if e.Return? { ReturnKeepsPace(u, e, start, initial); }
  }

  lemma {:induction false} EveryHistoryIsPaced(config: Config, start: Time, events: seq<Event>)
    requires Legal(Fresh(config, start), events)
    ensures Paced(After(Fresh(config, start), events), start, New(config, start).globalLimit)
  {
    if events == [] {
      StartIsPaced(config, start);
    } else {
      var n := |events| - 1;
      EveryHistoryIsPaced(config, start, events[..n]);
      EveryHistoryIsSafe(config, start, events[..n]);
      StepKeepsPace(After(Fresh(config, start), events[..n]), events[n], start, New(config, start).globalLimit);
    }
  }

  // Over any history with N releases and A global adjustments in a time D: 10 A + samples <= N,
  // A * interval <= D, and the global limit lies within 2^A of where it started.
  lemma {:induction false} AdjustmentsArePaced(config: Config, start: Time, events: seq<Event>)
    requires Legal(Fresh(config, start), events)
    ensures var u := After(Fresh(config, start), events);
            var initial := New(config, start).globalLimit;
            && 10 * u.adjustments + u.state.global.samples <= u.releases
            && u.adjustments * u.state.interval <= u.clock - start
            && Max(initial / Pow2(u.adjustments), 1) <= u.state.globalLimit
            && u.state.globalLimit <= Min(initial * Pow2(u.adjustments), u.state.max)
  {
    EveryHistoryIsPaced(config, start, events);
  }
}
