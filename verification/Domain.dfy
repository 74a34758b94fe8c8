// Entities shared by the scan protocol, the worker pool and the clients of the limiter.
module Domain {

  datatype AddressType = EVM | BTC | SOL | TRX

  datatype Chain = Bitcoin | Ethereum | Arbitrum | BSC | Solana | Tron

  // A stored wallet address as the scanner reads it.
  datatype Address = Address(id: int, kind: AddressType, text: string, tag: string)

  datatype ProviderError = ProviderError(code: string, provider: string, message: string,
                                         temporary: bool, retryAfter: int)

  // What a provider call can hand back: an exact balance, a classified error, or any other error.
  datatype Reply =
    | Balance(chain: Chain, atomic: int, symbol: string)
    | Classified(error: ProviderError)
    | Unclassified(message: string)

  function ChainsFor(kind: AddressType): seq<Chain> {
    match kind
    case EVM => [Ethereum, Arbitrum, BSC]
    case BTC => [Bitcoin]
    case SOL => [Solana]
    case TRX => [Tron]
  }

  function ChainName(chain: Chain): string {
    match chain
    case Bitcoin => "btc"
    case Ethereum => "ethereum"
    case Arbitrum => "arbitrum"
    case BSC => "bsc"
    case Solana => "solana"
    case Tron => "tron"
  }

  // The scanner treats an unclassified error as permanent; the two limiter clients treat it as temporary.
  function AsProviderError(reply: Reply, chain: Chain, temporary: bool): ProviderError
    requires !reply.Balance?
  {
    match reply
    case Classified(error) => error
    case Unclassified(message) => ProviderError("rpc_error", ChainName(chain), message, temporary, 0)
  }

  // Some predicates are folded: they mean what stands under a quantifier over this term. Proofs that look inside
  // mention the term; the others stay small. Where folded predicates nest, each opens at a depth of its own.
  ghost predicate Looking(depth: int) { true }

  // What becomes of a store call: one that fails may have taken effect.
  datatype Fate = Made | MadeUnseen | NotMade

  // Sums over a sequence.

  function Sum<T>(weight: T -> nat, items: seq<T>): nat {
    if items == [] then 0 else Sum(weight, items[..|items| - 1]) + weight(items[|items| - 1])
  }

  lemma {:induction false} SumAppends<T>(weight: T -> nat, a: seq<T>, b: seq<T>)
    ensures Sum(weight, a + b) == Sum(weight, a) + Sum(weight, b)
  {
    if b == [] {
      assert a + b == a;
    } else {
      var n := |b| - 1;
      SumAppends(weight, a, b[..n]);
      assert (a + b)[..|a + b| - 1] == a + b[..n] && (a + b)[|a + b| - 1] == b[n];
    }
  }

  lemma {:induction false} SumExtends<T>(weight: T -> nat, items: seq<T>, i: nat)
    requires i < |items|
    ensures Sum(weight, items[..i + 1]) == Sum(weight, items[..i]) + weight(items[i])
  {
    assert items[..i + 1][..i] == items[..i] && items[..i + 1][i] == items[i];
  }

  function Pow2(n: nat): nat
    ensures Pow2(n) >= 1
  {
    if n == 0 then 1 else 2 * Pow2(n - 1)
  }

  function Min(a: int, b: int): int { if a < b then a else b }

  function Max(a: int, b: int): int { if a > b then a else b }
}
