// The outcome of scanning one address on every chain of its type.
module Results {
  import opened Domain

  datatype Failure = Failure(chain: Chain, code: string, provider: string, message: string)

  datatype Finding = Finding(id: int, chain: Chain, atomic: int, symbol: string)

  datatype NodeAlert = NodeAlert(chain: Chain, provider: string, code: string, failures: nat)

  // answers is a history: the final answer for each chain, in the order of ChainsFor.
  datatype Result = Result(address: Address, findings: seq<Finding>, errors: seq<Failure>,
                           alerts: seq<NodeAlert>, pause: bool, answers: seq<Reply>)

  function Unconfigured(): Reply {
    Classified(ProviderError("provider_unconfigured", "", "provider is not configured", false, 0))
  }

  function FailureFrom(chain: Chain, answer: Reply): Failure
    requires !answer.Balance?
  {
    var error := AsProviderError(answer, chain, false);
    Failure(chain, error.code, error.provider, error.message)
  }

  // Appends the answer for the next chain of the address.
  function WithAnswer(result: Result, answer: Reply): Result
    requires |result.answers| < |ChainsFor(result.address.kind)|
  {
    var chain := ChainsFor(result.address.kind)[|result.answers|];
    var extended := result.(answers := result.answers + [answer]);
    if !answer.Balance? then
      extended.(errors := result.errors + [FailureFrom(chain, answer)])
    else if answer.atomic > 0 then
      extended.(findings := result.findings
                            + [Finding(result.address.id, answer.chain, answer.atomic, answer.symbol)])
    else
      extended
  }

  function FindingsOf(id: int, answers: seq<Reply>): seq<Finding> {
    if answers == [] then [] else
      var n := |answers| - 1;
      var answer := answers[n];
      FindingsOf(id, answers[..n])
      + if answer.Balance? && answer.atomic > 0
        then [Finding(id, answer.chain, answer.atomic, answer.symbol)] else []
  }

  function ErrorsOf(kind: AddressType, answers: seq<Reply>): seq<Failure>
    requires |answers| <= |ChainsFor(kind)|
  {
    if answers == [] then [] else
      var n := |answers| - 1;
      ErrorsOf(kind, answers[..n])
      + if answers[n].Balance? then [] else [FailureFrom(ChainsFor(kind)[n], answers[n])]
  }

  function NonPositive(answers: seq<Reply>): nat {
    if answers == [] then 0 else
      var n := |answers| - 1;
      NonPositive(answers[..n]) + if answers[n].Balance? && answers[n].atomic <= 0 then 1 else 0
  }

  // The lists a worker accumulates are exactly what its answers dictate.
  ghost predicate WellFormed(result: Result) {
    && |result.answers| <= |ChainsFor(result.address.kind)|
    && result.findings == FindingsOf(result.address.id, result.answers)
    && result.errors == ErrorsOf(result.address.kind, result.answers)
  }

  ghost predicate FullyAnswered(result: Result) {
    WellFormed(result) && |result.answers| == |ChainsFor(result.address.kind)|
  }

  lemma {:induction false} FindingsExtend(id: int, answers: seq<Reply>, answer: Reply)
    ensures FindingsOf(id, answers + [answer]) == FindingsOf(id, answers)
              + if answer.Balance? && answer.atomic > 0
                then [Finding(id, answer.chain, answer.atomic, answer.symbol)] else []
  {
    assert (answers + [answer])[..|answers|] == answers;
  }

  lemma {:induction false} ErrorsExtend(kind: AddressType, answers: seq<Reply>, answer: Reply)
    requires |answers| < |ChainsFor(kind)|
    ensures ErrorsOf(kind, answers + [answer]) == ErrorsOf(kind, answers)
              + if answer.Balance? then [] else [FailureFrom(ChainsFor(kind)[|answers|], answer)]
  {
    assert (answers + [answer])[..|answers|] == answers;
  }

  lemma {:induction false} AnswerKeepsWellFormed(result: Result, answer: Reply)
    requires WellFormed(result) && |result.answers| < |ChainsFor(result.address.kind)|
    ensures WellFormed(WithAnswer(result, answer))
    ensures WithAnswer(result, answer).answers == result.answers + [answer]
    ensures WithAnswer(result, answer).address == result.address
    ensures WithAnswer(result, answer).pause == result.pause
  {
    FindingsExtend(result.address.id, result.answers, answer);
    ErrorsExtend(result.address.kind, result.answers, answer);
  }

  // Each chain of an address is counted once: as a finding, as an error or as an empty balance.
  lemma {:induction false} AnswersAreConserved(id: int, kind: AddressType, answers: seq<Reply>)
    requires |answers| <= |ChainsFor(kind)|
    ensures |FindingsOf(id, answers)| + |ErrorsOf(kind, answers)| + NonPositive(answers) == |answers|
  {
    if answers != [] {
      AnswersAreConserved(id, kind, answers[..|answers| - 1]);
    }
  }

  // Every error and every positive answer appears in its list.
  lemma {:induction false} AnswerIsListed(id: int, kind: AddressType, answers: seq<Reply>, k: nat)
    requires k < |answers| <= |ChainsFor(kind)|
    ensures !answers[k].Balance? ==> FailureFrom(ChainsFor(kind)[k], answers[k]) in ErrorsOf(kind, answers)
    ensures answers[k].Balance? && answers[k].atomic > 0 ==>
              Finding(id, answers[k].chain, answers[k].atomic, answers[k].symbol) in FindingsOf(id, answers)
  {
    var n := |answers| - 1;
    if k < n {
      AnswerIsListed(id, kind, answers[..n], k);
    }
  }

  lemma {:induction false} FindingsArePositive(id: int, answers: seq<Reply>, finding: Finding)
    requires finding in FindingsOf(id, answers)
    ensures finding.id == id && finding.atomic > 0
  {
    var n := |answers| - 1;
    if finding in FindingsOf(id, answers[..n]) {
      FindingsArePositive(id, answers[..n], finding);
    }
  }
}
