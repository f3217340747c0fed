/**
 * ChaosInterceptor.swift: a pre-send hook that fails a given share of requests on
 * purpose. The random draw `Int.random(in: 1...100)` is a parameter; the random
 * delay before the failure is delivered is not modelled.
 */
module Chaos {
  import opened Wrappers
  import opened Http
  import opened ApiInterceptors
  import opened ApiPipeline
  import SendProperties

  datatype ChaosInterceptor = ChaosInterceptor(probability: int)

  /** `init(probability:)`: the percentage is clamped into 0...100. */
  function MakeChaos(probability: int): (c: ChaosInterceptor)
    ensures 0 <= c.probability <= 100
    ensures 0 <= probability <= 100 ==> c.probability == probability
    ensures probability < 0 ==> c.probability == 0
    ensures probability > 100 ==> c.probability == 100
  {
    ChaosInterceptor(if probability < 0 then 0 else if probability > 100 then 100 else probability)
  }

  /** The percentage `init(probability:)` uses when none is given. */
  const DefaultProbability := 20

  /** A draw of `Int.random(in: 1...100)`. */
  predicate IsDraw(draw: int) {
    1 <= draw <= 100
  }

  /**
   * `api(_:willSendRequest:withId:completion:)`: when the draw is at most the
   * probability the hook claims the request and fails it with `monkeyingAround`;
   * otherwise it lets the request through.
   */
  function ChaosWillSend(c: ChaosInterceptor, draw: int): (reply: PreSendReply)
    ensures reply.Claim? <==> draw <= c.probability
    ensures reply.Claim? ==> reply.completion == Some(Failure(MonkeyingAround))
  {
    if draw <= c.probability then Claim(Some(Failure(MonkeyingAround))) else Pass
  }

  /** How many of the draws 1...n make the hook claim. */
  function ClaimingDraws(c: ChaosInterceptor, n: nat): nat {
    if n == 0 then 0 else ClaimingDraws(c, n - 1) + (if ChaosWillSend(c, n).Claim? then 1 else 0)
  }

  /** Exactly `probability` of the 100 equally likely draws fail the request: the failure rate is the percentage. */
  lemma {:induction false} FailureRateIsProbability(c: ChaosInterceptor, n: nat)
    requires 0 <= c.probability <= 100
    requires c.probability <= n
    ensures ClaimingDraws(c, n) == c.probability
  {
    if n > c.probability {
      FailureRateIsProbability(c, n - 1);
    } else {
      UpToProbabilityAllClaim(c, n);
    }
  }

  /** A chaos interceptor made with the default percentage fails exactly 20 of the 100 draws. */
  lemma DefaultChaosFailsOneInFive()
    ensures MakeChaos(DefaultProbability).probability == 20
    ensures ClaimingDraws(MakeChaos(DefaultProbability), 100) == 20
  {
    FailureRateIsProbability(MakeChaos(DefaultProbability), 100);
  }

  lemma {:induction false} UpToProbabilityAllClaim(c: ChaosInterceptor, n: nat)
    requires n <= c.probability
    ensures ClaimingDraws(c, n) == n
  {
    if n > 0 {
      UpToProbabilityAllClaim(c, n - 1);
    }
  }

  /** A 0% interceptor never interferes and a 100% one always fails the request, whatever was asked at init. */
  lemma ClampedExtremes(probability: int, draw: int)
    requires IsDraw(draw)
    ensures probability <= 0 ==> ChaosWillSend(MakeChaos(probability), draw) == Pass
    ensures probability >= 100 ==> ChaosWillSend(MakeChaos(probability), draw) == Claim(Some(Failure(MonkeyingAround)))
  {
  }

  /** The interceptor as the pipeline sees it for one request and one draw: only the pre-send hook is overridden. */
  function AsInterceptor(c: ChaosInterceptor, draw: int): (ic: Interceptor)
    ensures ic.modifyRequest == DefaultModifyRequest && ic.didReceive == DefaultDidReceive
    ensures forall r :: ic.willSend(r) == ChaosWillSend(c, draw)
  {
    Interceptor(DefaultModifyRequest, r => ChaosWillSend(c, draw), DefaultDidReceive)
  }

  /** When chaos strikes, the request is never sent and its caller gets `monkeyingAround` once. */
  lemma ChaosFailsRequest(c: ChaosInterceptor, draw: int, request: Request, id: Uuid, output: TaskOutput)
    requires draw <= c.probability
    ensures SendSpec([AsInterceptor(c, draw)], false, request, id, output).steps
            == [Modified(0, request), Claimed(0), Delivered(Failure(MonkeyingAround))]
  {
    var ics := [AsInterceptor(c, draw)];
    assert ics[0].modifyRequest(request) == Replied(Some(request));
    assert SendAnswers(ics, request)[0] == ics[0].willSend(request).Claim?;
    assert FirstClaim(SendAnswers(ics, request)) == Some(0);
    assert ReceiveAnswers(ics, Failure(MonkeyingAround), request)[0] == ics[0].didReceive(Failure(MonkeyingAround), request);
    assert FirstClaim(ReceiveAnswers(ics, Failure(MonkeyingAround), request)).None?;
    assert ModifyLoop(ics, id, request, false, false, 1) == Run([], Finished(request, false), false);
    assert ModifyLoop(ics, id, request, false, false, 0).steps == [Modified(0, request)] + [];
  }

  /** Otherwise the interceptor is invisible: the pipeline runs as if it overrode nothing. */
  lemma ChaosOtherwiseTransparent(c: ChaosInterceptor, draw: int, request: Request, id: Uuid, output: TaskOutput)
    requires draw > c.probability
    ensures SendSpec([AsInterceptor(c, draw)], false, request, id, output).steps == SendSpec([Defaults], false, request, id, output).steps
  {
    var ics := [AsInterceptor(c, draw)];
    var result := TransformToResult(output);
    assert ics[0].modifyRequest(request) == Replied(Some(request));
    assert SendAnswers(ics, request)[0] == ics[0].willSend(request).Claim?;
    assert ReceiveAnswers(ics, result, request)[0] == ics[0].didReceive(result, request);
    assert FirstClaim(SendAnswers(ics, request)).None?;
    assert FirstClaim(ReceiveAnswers(ics, result, request)).None?;
    assert ModifyLoop(ics, id, request, false, false, 1) == Run([], Finished(request, false), false);
    assert ModifyLoop(ics, id, request, false, false, 0).steps == [Modified(0, request)] + [];
    assert PreSendAndNetwork(ics, request, output) == [Sent(request), Delivered(StatusChecked(result))];
    SendProperties.DefaultsAreTransparent(request, id, output);
  }
}
