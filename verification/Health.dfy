// Per-chain consecutive-failure tracking with one alert per unhealthy episode.
module Health {
  import opened Domain

  datatype ChainHealth = ChainHealth(failures: nat, unhealthy: bool, alertSent: bool)

  const FRESH := ChainHealth(0, false, false)

  type Book = map<Chain, ChainHealth>

  function At(book: Book, chain: Chain): ChainHealth {
    if chain in book then book[chain] else FRESH
  }

  function Unhealthy(book: Book): set<Chain> {
    set chain | chain in book && book[chain].unhealthy
  }

  function Fail(book: Book, chain: Chain, threshold: nat): Book {
    var state := At(book, chain);
    var failures := state.failures + 1;
    book[chain := state.(failures := failures, unhealthy := state.unhealthy || failures >= threshold)]
  }

  function Succeed(book: Book, chain: Chain): Book {
    book[chain := FRESH]
  }

  // Looking a chain up creates its entry.
  function Touch(book: Book, chain: Chain): Book {
    book[chain := At(book, chain)]
  }

  predicate AlertDue(book: Book, chain: Chain) {
    At(book, chain).unhealthy && !At(book, chain).alertSent
  }

  function MarkAlerted(book: Book, chain: Chain): Book {
    var state := At(book, chain);
    book[chain := state.(alertSent := state.alertSent || state.unhealthy)]
  }

  // The calls made on a tracker, with the answer each request for an alert received.
  datatype Event =
    | Failure(chain: Chain)
    | Success(chain: Chain)
    | Query(chain: Chain)
    | Alert(chain: Chain, taken: bool)

  function After(book: Book, event: Event, threshold: nat): Book {
    match event
    case Failure(chain) => Fail(book, chain, threshold)
    case Success(chain) => Succeed(book, chain)
    case Query(chain) => Touch(book, chain)
    case Alert(chain, _) => MarkAlerted(book, chain)
  }

  function Replay(start: Book, history: seq<Event>, threshold: nat): Book {
    if history == [] then start
    else After(Replay(start, history[..|history| - 1], threshold), history[|history| - 1], threshold)
  }

  // Every recorded answer is the one the tracker gives in that position.
  ghost predicate Faithful(start: Book, history: seq<Event>, threshold: nat) {
    forall i :: 0 <= i < |history| && history[i].Alert? ==>
      history[i].taken == AlertDue(Replay(start, history[..i], threshold), history[i].chain)
  }

  // Failures on the chain since its last success.
  function TrailingFailures(history: seq<Event>, chain: Chain): nat {
    if history == [] then 0 else
      var before := history[..|history| - 1];
      match history[|history| - 1]
      case Failure(c) => TrailingFailures(before, chain) + (if c == chain then 1 else 0)
      case Success(c) => if c == chain then 0 else TrailingFailures(before, chain)
      case _ => TrailingFailures(before, chain)
  }

  // The failures and the verdict for a chain at the end of a history: those of the start count until a success.

  function FailuresAfter(start: Book, history: seq<Event>, chain: Chain): nat {
    TrailingFailures(history, chain) + if Success(chain) in history then 0 else At(start, chain).failures
  }

  predicate IllAfter(start: Book, history: seq<Event>, threshold: nat, chain: Chain) {
    || (Success(chain) !in history && At(start, chain).unhealthy)
    || (TrailingFailures(history, chain) > 0 && FailuresAfter(start, history, chain) >= threshold)
  }

  lemma {:induction false} TrailExtends(start: Book, before: seq<Event>, last: Event, chain: Chain)
    ensures TrailingFailures(before + [last], chain)
         == if last == Success(chain) then 0
            else TrailingFailures(before, chain) + if last == Failure(chain) then 1 else 0
    ensures FailuresAfter(start, before + [last], chain)
         == if last == Success(chain) then 0
            else FailuresAfter(start, before, chain) + if last == Failure(chain) then 1 else 0
  {
    assert (before + [last])[..|before|] == before;
    assert Success(chain) in before + [last] <==> Success(chain) in before || last == Success(chain);
  }

  lemma {:induction false} VerdictExtends(start: Book, before: seq<Event>, last: Event, threshold: nat, chain: Chain)
    ensures IllAfter(start, before + [last], threshold, chain) <==> (
              && last != Success(chain)
              && (|| IllAfter(start, before, threshold, chain)
                  || (last == Failure(chain) && FailuresAfter(start, before, chain) + 1 >= threshold)))
  {
    TrailExtends(start, before, last, chain);
    assert Success(chain) in before + [last] <==> Success(chain) in before || last == Success(chain);
  }

  lemma {:induction false} AfterAtChain(book: Book, last: Event, threshold: nat, chain: Chain)
    ensures At(After(book, last, threshold), chain).failures
         == if last == Success(chain) then 0
            else At(book, chain).failures + if last == Failure(chain) then 1 else 0
    ensures At(After(book, last, threshold), chain).unhealthy <==> (
              && last != Success(chain)
              && (|| At(book, chain).unhealthy
                  || (last == Failure(chain) && At(book, chain).failures + 1 >= threshold)))
  {}

  lemma {:induction false} CounterIsTrailingRun(start: Book, history: seq<Event>, threshold: nat, chain: Chain)
    ensures At(Replay(start, history, threshold), chain).failures == FailuresAfter(start, history, chain)
    ensures At(Replay(start, history, threshold), chain).unhealthy <==> IllAfter(start, history, threshold, chain)
  {
    if history != [] {
      var before, last := history[..|history| - 1], history[|history| - 1];
      assert history == before + [last];
      CounterIsTrailingRun(start, before, threshold, chain);
      TrailExtends(start, before, last, chain);
      VerdictExtends(start, before, last, threshold, chain);
      AfterAtChain(Replay(start, before, threshold), last, threshold, chain);
    }
  }

  lemma {:induction false} AlertHoldsUntilSuccess(start: Book, history: seq<Event>, threshold: nat, chain: Chain,
                                                  i: nat)
    requires Faithful(start, history, threshold)
    requires i < |history| && history[i] == Alert(chain, true)
    requires forall k :: i < k < |history| ==> history[k] != Success(chain)
    ensures At(Replay(start, history, threshold), chain).alertSent
  {
    var n := |history| - 1;
    var before := history[..n];
    if i < n {
      forall k | 0 <= k < n ensures before[..k] == history[..k] {}
      AlertHoldsUntilSuccess(start, before, threshold, chain, i);
    }
  }

  // Two alerts on one chain are separated by a recovery, and each is raised by a full run of failures.
  lemma {:induction false} OneAlertPerEpisode(start: Book, history: seq<Event>, threshold: nat, chain: Chain, i: nat,
                                              j: nat)
    requires Faithful(start, history, threshold)
    requires i < j < |history| && history[i] == history[j] == Alert(chain, true)
    ensures exists k :: i < k < j && history[k] == Success(chain)
    ensures TrailingFailures(history[..j], chain) >= threshold
  {
    var before := history[..j];
    forall k | 0 <= k < j ensures before[..k] == history[..k] {}
    if forall k :: i < k < j ==> history[k] != Success(chain) {
      AlertHoldsUntilSuccess(start, before, threshold, chain, i);
    }
    var k :| i < k < j && history[k] == Success(chain);
    assert before[k] == Success(chain);
    CounterIsTrailingRun(start, before, threshold, chain);
  }

  // The book is what a faithful history leaves; folded.
  ghost predicate Leaves(start: Book, history: seq<Event>, threshold: nat, book: Book) {
    forall depth {:trigger Looking(depth)} :: Looking(depth) ==>
      Faithful(start, history, threshold) && book == Replay(start, history, threshold)
  }

  // Extending a faithful history by the answer the tracker gives keeps it faithful.
  lemma {:induction false} HistoryExtends(start: Book, history: seq<Event>, event: Event, threshold: nat, book: Book)
    requires Leaves(start, history, threshold, book)
    requires event.Alert? ==> event.taken == AlertDue(book, event.chain)
    ensures Leaves(start, history + [event], threshold, After(book, event, threshold))
  {
    assert Looking(0);
    var extended := history + [event];
    assert extended[..|history|] == history;
    forall i | 0 <= i < |history| ensures extended[..i] == history[..i] {}
  }

  lemma {:induction false} ReplayComposes(start: Book, a: seq<Event>, b: seq<Event>, threshold: nat)
    ensures Replay(start, a + b, threshold) == Replay(Replay(start, a, threshold), b, threshold)
  {
    if b == [] {
      assert a + b == a;
    } else {
      ReplayComposes(start, a, b[..|b| - 1], threshold);
      assert (a + b)[..|a + b| - 1] == a + b[..|b| - 1];
    }
  }

  // One history after another.
  lemma {:induction false} HistoriesCompose(start: Book, a: seq<Event>, mid: Book, b: seq<Event>, end: Book,
                                            threshold: nat)
    requires Leaves(start, a, threshold, mid) && Leaves(mid, b, threshold, end)
    ensures Leaves(start, a + b, threshold, end)
  {
    assert Looking(0);
    ReplayComposes(start, a, b, threshold);
    forall i | 0 <= i < |a + b| && (a + b)[i].Alert?
      ensures (a + b)[i].taken == AlertDue(Replay(start, (a + b)[..i], threshold), (a + b)[i].chain)
    {
      if i < |a| {
        assert (a + b)[..i] == a[..i];
      } else {
        assert (a + b)[..i] == a + b[..i - |a|];
        ReplayComposes(start, a, b[..i - |a|], threshold);
      }
    }
  }

  // A part of a history leaves a book, too.
  lemma {:induction false} PrefixLeaves(start: Book, history: seq<Event>, threshold: nat, n: nat)
    requires Faithful(start, history, threshold) && n <= |history|
    ensures Leaves(start, history[..n], threshold, Replay(start, history[..n], threshold))
  {
    forall i | 0 <= i < n ensures history[..n][..i] == history[..i] {}
  }

  // The tracker; its ghost history is the sequence of calls made so far.
  class HealthTracker {
    const threshold: nat
    var states: Book
    ghost var history: seq<Event>

    ghost predicate Valid()
      reads this
    {
      Leaves(map[], history, threshold, states)
    }

    constructor (threshold: nat)
      ensures Valid() && this.threshold == threshold && history == [] && states == map[]
    {
      this.threshold := threshold;
      states := map[];
      history := [];
    }

    method State(chain: Chain) returns (state: ChainHealth)
      modifies this`states
      ensures state == At(old(states), chain) && states == Touch(old(states), chain)
    {
      if chain !in states {
        states := states[chain := FRESH];
      }
      state := states[chain];
    }

    method Failure(chain: Chain) returns (unhealthy: bool)
      requires Valid()
      modifies this
      ensures Valid() && history == old(history) + [Event.Failure(chain)]
      ensures states == Fail(old(states), chain, threshold)
      ensures unhealthy == At(states, chain).unhealthy
    {
      HistoryExtends(map[], history, Event.Failure(chain), threshold, states);
      var state := State(chain);
      state := state.(failures := state.failures + 1);
      if state.failures >= threshold {
        state := state.(unhealthy := true);
      }
      states := states[chain := state];
      history := history + [Event.Failure(chain)];
      unhealthy := state.unhealthy;
    }

    method Success(chain: Chain) returns (recovered: bool)
      requires Valid()
      modifies this
      ensures Valid() && history == old(history) + [Event.Success(chain)]
      ensures states == Succeed(old(states), chain)
      ensures recovered == At(old(states), chain).unhealthy
    {
      HistoryExtends(map[], history, Event.Success(chain), threshold, states);
      var state := State(chain);
      recovered := state.unhealthy;
      states := states[chain := state.(failures := 0, unhealthy := false, alertSent := false)];
      history := history + [Event.Success(chain)];
    }

    method IsUnhealthy(chain: Chain) returns (unhealthy: bool)
      requires Valid()
      modifies this
      ensures Valid() && history == old(history) + [Query(chain)]
      ensures states == Touch(old(states), chain)
      ensures unhealthy == At(old(states), chain).unhealthy
    {
      HistoryExtends(map[], history, Query(chain), threshold, states);
      var state := State(chain);
      history := history + [Query(chain)];
      unhealthy := state.unhealthy;
    }

    method TakeAlert(chain: Chain) returns (alert: bool, failures: nat)
      requires Valid()
      modifies this
      ensures Valid() && history == old(history) + [Alert(chain, alert)]
      ensures states == MarkAlerted(old(states), chain)
      ensures alert == AlertDue(old(states), chain)
      ensures failures == At(old(states), chain).failures
    {
      HistoryExtends(map[], history, Alert(chain, AlertDue(states, chain)), threshold, states);
      var state := State(chain);
      alert := state.unhealthy && !state.alertSent;
      failures := state.failures;
      if alert {
        states := states[chain := state.(alertSent := true)];
      }
      history := history + [Alert(chain, alert)];
    }
  }
}
