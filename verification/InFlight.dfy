// The limiter object. A token stands for the release function a client is given, and its owner for that client.
// Every method that takes the lock once is atomic; between two of them the other clients may use the limiter
// in any legal way.
module InFlight {
  import opened Domain
  import Spec = LimiterSpec
  import opened LimiterLaws

  const STEP := 10 * Spec.MILLISECOND
  const ADVICE := 250 * Spec.MILLISECOND

  // The capacity checks one queue wait allows.
  function MaxChecks(queueWait: int): int { (queueWait + STEP - 1) / STEP + 1 }

  lemma {:induction false} RoomForOneMore(queueWait: int, checks: nat, elapsed: int)
    requires Min(queueWait, STEP * checks) <= elapsed < queueWait
    ensures checks + 1 < MaxChecks(queueWait)
  {}

  lemma {:induction false} SoundReleaseAdjusts(s: Spec.State, tokens: map<nat, string>, token: nat,
                                               outcome: Spec.Outcome,
                                               r: Spec.Readings)
    requires Spec.Sound(s, tokens) && token in tokens && tokens[token] == outcome.chain
    ensures var after := Spec.Release(s, outcome, r);
            && AdjustsRightly(s.global, after.global, outcome, s, r.globalSeen, r.globalStamped)
            && after.globalLimit == after.global.limit
            && outcome.chain in s.chains && outcome.chain in after.chains
            && AdjustsRightly(s.chains[outcome.chain], after.chains[outcome.chain], outcome, s, r.chainSeen,
                              r.chainStamped)
  {
    Spec.Look(s, tokens);
    ReleaseAdjusts(s, tokens, token, outcome, r);
  }

  // What a client did with the limiter: looked for room, and saw this state, or gave a grant back.
  datatype Note =
    | Looked(client: int, chain: string, state: Spec.State)
    | Returned(client: int, outcome: Spec.Outcome)

  ghost predicate SawRoom(note: Note, client: int, chain: string, room: bool) {
    && note.Looked? && note.client == client && note.chain == chain
    && chain in note.state.chains && Spec.HasCapacity(note.state, chain) == room
  }

  // Since the log had this length, the client found room on the chain, or found none.
  ghost predicate Found(log: seq<Note>, from: nat, client: int, chain: string, room: bool) {
    exists i :: from <= i < |log| && SawRoom(log[i], client, chain, room)
  }

  ghost predicate Tells(note: Note, client: int, chain: string, retryable: bool, took: nat) {
    && note.Returned? && note.client == client && note.outcome.chain == chain
    && note.outcome.retryable == retryable && took <= note.outcome.latency
  }

  // Since then the client has told the limiter of such an outcome.
  ghost predicate Told(log: seq<Note>, from: nat, client: int, chain: string, retryable: bool, took: nat) {
    exists i :: from <= i < |log| && Tells(log[i], client, chain, retryable, took)
  }

  lemma {:induction false} NotesStay(log: seq<Note>, longer: seq<Note>, from: nat, earlier: nat, client: int,
                                     chain: string)
    requires log <= longer && earlier <= from
    ensures forall room :: Found(log, from, client, chain, room) ==> Found(longer, earlier, client, chain, room)
    ensures forall retryable, took :: Told(log, from, client, chain, retryable, took) ==>
              Told(longer, earlier, client, chain, retryable, took)
  {
    forall i | 0 <= i < |log| ensures longer[i] == log[i] {}
  }

  class Limiter {
    var max: int
    var globalLimit: int
    var globalActive: int
    var queueWait: int
    var interval: int
    var target: int
    var chains: map<string, Spec.Gauge>
    var global: Spec.Gauge
    var clock: Spec.Time
    var tokens: map<nat, string>
    var owner: map<nat, int>
    var nextToken: nat
    ghost var log: seq<Note>

    ghost function State(): Spec.State
      reads this
    {
      Spec.State(max, globalLimit, globalActive, queueWait, interval, target, chains, global)
    }

    ghost predicate Valid()
      reads this
    {
      Spec.Sound(State(), tokens) && owner.Keys == tokens.Keys && forall t :: t in tokens ==> t < nextToken
    }

    // The grants a client has in hand, with the chains they were acquired for.
    ghost function Hand(client: int): map<nat, string>
      reads this
    {
      map t | t in tokens && t in owner && owner[t] == client :: tokens[t]
    }

    constructor (config: Spec.Config, now: Spec.Time)
      ensures Valid() && State() == Spec.New(config, now) && tokens == map[] && clock == now && log == []
    {
      max := if config.max < 1 then 1 else config.max;
      var initial := if config.initial < 1 then 1 else config.initial;
      if config.max < 1 {
        if initial > 1 { initial := 1; }
      } else if initial > config.max {
        initial := config.max;
      }
      queueWait := if config.queueWait <= 0 then 250 * Spec.MILLISECOND else config.queueWait;
      interval := if config.interval <= 0 then 5 * Spec.SECOND else config.interval;
      target := if config.target <= 0 then 800 * Spec.MILLISECOND else config.target;
      globalLimit, globalActive := initial, 0;
      chains, global := map[], Spec.Gauge(initial, 0, 0, 0, 0, now);
      clock, tokens, owner, nextToken, log := now, map[], map[], 0, [];
      Spec.NewIsSound(config, now);
    }

    method ReadClock() returns (now: Spec.Time)
      modifies this`clock
      ensures now == clock >= old(clock)
    {
      var tick: nat :| 0 <= tick;
      clock := clock + tick;
      now := clock;
    }

    // Finds a chain's gauge, creating it on first use; called with the lock held.
    method Chain(name: string) returns (gauge: Spec.Gauge)
      modifies this`chains, this`clock
      ensures clock >= old(clock)
      ensures State() == Spec.Touch(old(State()), name, clock) && chains[name] == gauge
    {
      var now := ReadClock();
      if name !in chains {
        chains := chains[name := Spec.Gauge(globalLimit, 0, 0, 0, 0, now)];
      }
      gauge := chains[name];
    }

    // Makes a chain visible before its first request.
    method Register(name: string)
      requires Valid()
      modifies this
      ensures Valid() && clock >= old(clock) && log == old(log)
      ensures tokens == old(tokens) && owner == old(owner) && nextToken == old(nextToken)
      ensures State() == Spec.Touch(old(State()), name, clock) && name in chains
      ensures forall c :: c in old(chains) ==> c in chains && chains[c] == old(chains)[c]
      ensures name !in old(chains) ==>
                chains == old(chains)[name := Spec.Gauge(old(globalLimit), 0, 0, 0, 0, clock)]
      ensures globalLimit == old(globalLimit) && globalActive == old(globalActive) && global == old(global)
    {
      ghost var before := State();
      var gauge := Chain(name);
      Spec.TouchIsSound(before, tokens, name, clock);
    }

    // One capacity check. On success it hands out a fresh grant; otherwise some limit was full.
    method TryAcquire(name: string, client: int) returns (granted: bool, token: nat)
      requires Valid()
      modifies this
      ensures Valid() && clock >= old(clock)
      ensures granted == Spec.HasCapacity(Spec.Touch(old(State()), name, clock), name)
      ensures State() == if granted then Spec.Take(Spec.Touch(old(State()), name, clock), name)
                         else Spec.Touch(old(State()), name, clock)
      ensures granted ==> token == old(nextToken) && nextToken == token + 1
      ensures granted ==> tokens == old(tokens)[token := name] && owner == old(owner)[token := client]
      ensures !granted ==> tokens == old(tokens) && owner == old(owner) && nextToken == old(nextToken)
      ensures log == old(log) + [Looked(client, name, Spec.Touch(old(State()), name, clock))]
      ensures name in Spec.Touch(old(State()), name, clock).chains
    {
      Register(name);
      log := log + [Looked(client, name, State())];
      token := nextToken;
      granted := globalActive < globalLimit && chains[name].active < chains[name].limit;
      if granted {
        Grant(name, client);
      }
    }

    // Counts one more call, with a fresh token for it.
    method Grant(name: string, client: int)
      requires Valid() && name in chains && Spec.HasCapacity(State(), name)
      modifies this
      ensures Valid() && clock == old(clock) && State() == Spec.Take(old(State()), name)
      ensures tokens == old(tokens)[old(nextToken) := name] && owner == old(owner)[old(nextToken) := client]
      ensures nextToken == old(nextToken) + 1 && log == old(log)
    {
      Spec.TakeIsSound(State(), tokens, name, nextToken);
      CountCall(name);
      tokens, owner := tokens[nextToken := name], owner[nextToken := client];
      nextToken := nextToken + 1;
    }

    method CountCall(name: string)
      requires name in chains
      modifies this`globalActive, this`chains
      ensures State() == Spec.Take(old(State()), name)
    {
      globalActive := globalActive + 1;
      chains := chains[name := chains[name].(active := chains[name].active + 1)];
    }

    // Gives a grant back.
    method Release(outcome: Spec.Outcome, token: nat) returns (ghost r: Spec.Readings)
      requires Valid() && token in tokens && tokens[token] == outcome.chain
      modifies this
      ensures Valid() && nextToken == old(nextToken)
      ensures tokens == old(tokens) - {token} && owner == old(owner) - {token}
      ensures log == old(log) + [Returned(old(owner)[token], outcome)]
      ensures Spec.Ordered(old(clock), r, clock)
      ensures State() == Spec.Release(old(State()), outcome, r)
      ensures AdjustsRightly(old(global), global, outcome, old(State()), r.globalSeen, r.globalStamped)
      ensures globalLimit == global.limit && outcome.chain in old(chains) && outcome.chain in chains
      ensures AdjustsRightly(old(chains)[outcome.chain], chains[outcome.chain], outcome, old(State()), r.chainSeen,
                             r.chainStamped)
    {
      ghost var note := Returned(owner[token], outcome);
      r := Settle(outcome);
      tokens, owner := tokens - {token}, owner - {token};
      Spec.ReleaseIsSound(old(State()), old(tokens), token, outcome, r);
      SoundReleaseAdjusts(old(State()), old(tokens), token, outcome, r);
      log := log + [note];
    }

    // The release itself: count down, learn from the outcome, adapt both limits.
    method Settle(outcome: Spec.Outcome) returns (ghost r: Spec.Readings)
      modifies this`chains, this`clock, this`global, this`globalActive, this`globalLimit
      ensures Spec.Ordered(old(clock), r, clock)
      ensures State() == Spec.Release(old(State()), outcome, r)
    {
      var gauge := Chain(outcome.chain);
      ghost var created := clock;
      if globalActive > 0 {
        globalActive := globalActive - 1;
      }
      if gauge.active > 0 {
        gauge := gauge.(active := gauge.active - 1);
      }
      global := Spec.UpdateStats(global, outcome);
      gauge := Spec.UpdateStats(gauge, outcome);
      ghost var seen, stamped, laterSeen, laterStamped;
      global, seen, stamped := AdjustGauge(global, true);
      gauge, laterSeen, laterStamped := AdjustGauge(gauge, false);
      chains := chains[outcome.chain := gauge];
      r := Spec.Readings(created, seen, stamped, laterSeen, laterStamped);
    }

    // Adapts one limit if an adjustment is due; the global limit is kept in two places.
    method AdjustGauge(gauge: Spec.Gauge, isGlobal: bool)
      returns (adjusted: Spec.Gauge, ghost seen: Spec.Time, ghost stamped: Spec.Time)
      modifies this`clock, this`globalLimit
      ensures old(clock) <= seen <= stamped == clock
      ensures adjusted == Spec.Adjust(State(), gauge, seen, stamped)
      ensures gauge.samples < 10 || seen - gauge.adjustedAt < interval ==> adjusted == gauge
      ensures gauge.samples >= 10 && seen - gauge.adjustedAt >= interval ==> (
                && adjusted == gauge.(limit := adjusted.limit, samples := 0, failures := 0, adjustedAt := stamped)
                && (gauge.failures > 0 || gauge.ewma > 2 * target ==> adjusted.limit == Max(gauge.limit / 2, 1))
                && (gauge.failures == 0 && gauge.ewma <= target ==>
                      adjusted.limit == Min(gauge.limit + Max(gauge.limit / 5, 1), max))
                && (gauge.failures == 0 && target < gauge.ewma <= 2 * target ==> adjusted.limit == gauge.limit))
      ensures globalLimit == if isGlobal && Spec.Due(gauge, interval, seen) then adjusted.limit else old(globalLimit)
    {
      var now := ReadClock();
      adjusted, seen, stamped := gauge, now, now;
      if gauge.samples < 10 || now - gauge.adjustedAt < interval {
        return;
      }
      var limit := gauge.limit;
      if gauge.failures > 0 || gauge.ewma > target * 2 {
        limit := limit / 2;
        if limit < 1 { limit := 1; }
      } else if gauge.ewma <= target {
        var increase := limit / 5;
        if increase < 1 { increase := 1; }
        limit := limit + increase;
        if limit > max { limit := max; }
      }
      if isGlobal {
        globalLimit := limit;
      }
      now := ReadClock();
      stamped := now;
      adjusted := gauge.(limit := limit, samples := 0, failures := 0, adjustedAt := now);
    }

    // The wait advised with a refusal. Limits never drop below one, so it is always a quarter of a second.
    method RetryAfter(name: string) returns (advice: int)
      requires Valid()
      modifies this
      ensures Valid() && clock >= old(clock) && log == old(log)
      ensures tokens == old(tokens) && owner == old(owner) && nextToken == old(nextToken)
      ensures queueWait == old(queueWait)
      ensures advice == ADVICE
    {
      ghost var before := State();
      var gauge := Chain(name);
      Spec.TouchIsSound(before, tokens, name, clock);
      advice := if gauge.limit < 1 || globalLimit < 1 then Spec.SECOND else ADVICE;
    }

    // A step of another client, who returns only grants of its own.
    method OtherStep(client: int)
      requires Valid()
      modifies this
      ensures Valid() && Hand(client) == old(Hand(client)) && clock >= old(clock) && queueWait == old(queueWait)
      ensures nextToken >= old(nextToken) && old(log) <= log
    {
      var outcome: Spec.Outcome := *;
      var theirs: nat := *;
      var other: int := *;
      if theirs in tokens && owner[theirs] != client && tokens[theirs] == outcome.chain {
        ghost var r := Release(outcome, theirs);
      } else if other != client {
        var granted, token := TryAcquire(outcome.chain, other);
      }
    }

    // Any number of steps of the other clients.
    method Others(client: int)
      requires Valid()
      modifies this
      ensures Valid() && Hand(client) == old(Hand(client)) && clock >= old(clock) && queueWait == old(queueWait)
      ensures nextToken >= old(nextToken) && old(log) <= log
    {
      var steps: nat := *;
      while steps > 0
        invariant Valid() && Hand(client) == old(Hand(client)) && clock >= old(clock) && queueWait == old(queueWait)
        invariant nextToken >= old(nextToken) && old(log) <= log
      {
        OtherStep(client);
        steps := steps - 1;
      }
    }

    method Sleep(wait: nat)
      modifies this`clock
      ensures clock >= old(clock) + wait
    {
      var extra: nat :| 0 <= extra;
      clock := clock + wait + extra;
    }

    // One capacity check as a waiting client sees it.
    method Poll(name: string, client: int) returns (granted: bool, token: nat)
      requires Valid()
      modifies this
      ensures Valid() && queueWait == old(queueWait) && clock >= old(clock) && nextToken >= old(nextToken)
      ensures granted ==> Hand(client) == old(Hand(client))[token := name] && old(nextToken) <= token
      ensures !granted ==> Hand(client) == old(Hand(client))
      ensures old(log) <= log && Found(log, |old(log)|, client, name, granted)
    {
      granted, token := TryAcquire(name, client);
      assert SawRoom(log[|old(log)|], client, name, granted);
    }

    // Waits for a grant for at most the queue wait. A refusal follows a check that saw a full limit,
    // and there are at most as many checks as ten-millisecond sleeps fit into the queue wait, plus one.
    method Acquire(name: string, client: int)
      returns (granted: bool, token: nat, advice: int, ghost checks: nat)
      requires Valid()
      modifies this
      ensures Valid() && queueWait == old(queueWait) && clock >= old(clock)
      ensures 1 <= checks <= MaxChecks(queueWait)
      ensures granted ==> Hand(client) == old(Hand(client))[token := name] && old(nextToken) <= token && advice == 0
      ensures !granted ==> Hand(client) == old(Hand(client)) && advice == ADVICE
      ensures old(log) <= log && Found(log, |old(log)|, client, name, granted)
    {
      WaitIsPositive();
      var start := ReadClock();
      var deadline := start + queueWait;
      checks := 0;
      while true
        invariant Valid() && Hand(client) == old(Hand(client)) && queueWait == old(queueWait)
        invariant nextToken >= old(nextToken) && old(log) <= log
        invariant clock >= start >= old(clock)
        invariant checks < MaxChecks(queueWait)
        invariant clock - start >= Min(queueWait, STEP * checks)
        decreases MaxChecks(queueWait) - checks
      {
        ghost var before := log;
        granted, token := Poll(name, client);
        NotesStay(log, log, |before|, |old(log)|, client, name);
        ghost var after := log;
        checks := checks + 1;
        if granted {
          advice := 0;
          return;
        }
        var now := ReadClock();
        var wait := deadline - now;
        Others(client);
        var cancelled: bool := *;
        NotesStay(after, log, |old(log)|, |old(log)|, client, name);
        if wait <= 0 || cancelled {
          advice := RetryAfter(name);
          return;
        }
        RoomForOneMore(queueWait, checks - 1, now - start);
        if wait > STEP {
          wait := STEP;
        }
        Sleep(wait);
      }
    }

    lemma {:induction false} WaitIsPositive()
      requires Valid()
      ensures queueWait > 0
    {
      Spec.Look(State(), tokens);
    }
  }
}
