/**
 * ConnectivityInterceptor.swift: a pre-send hook that fails requests at once while
 * the network path is not satisfied. What `NWPathMonitor` reports for the current
 * path is a parameter.
 */
module Connectivity {
  import opened Wrappers
  import opened Http
  import opened ApiInterceptors
  import opened ApiPipeline
  import SendProperties

  /**
   * `api(_:willSendRequest:withId:completion:)`: with no satisfied path the hook
   * claims the request and fails it with `noConnectivity`; otherwise it passes.
   */
  function ConnectivityWillSend(pathSatisfied: bool): (reply: PreSendReply)
    ensures reply.Claim? <==> !pathSatisfied
    ensures reply.Claim? ==> reply.completion == Some(Failure(NoConnectivity))
  {
    if !pathSatisfied then Claim(Some(Failure(NoConnectivity))) else Pass
  }

  function AsInterceptor(pathSatisfied: bool): (ic: Interceptor)
    ensures ic.modifyRequest == DefaultModifyRequest && ic.didReceive == DefaultDidReceive
    ensures forall r :: ic.willSend(r) == ConnectivityWillSend(pathSatisfied)
  {
    Interceptor(DefaultModifyRequest, r => ConnectivityWillSend(pathSatisfied), DefaultDidReceive)
  }

  /**
   * Offline, no request reaches the network, whatever interceptors come after it: a
   * later modify hook may cancel or stay silent, and the loop then ends before
   * pre-send. When the loop finishes, this interceptor is the first pre-send hook, so
   * it claims, and unless a receive hook claims the error the caller gets
   * `noConnectivity` at once.
   */
  lemma OfflineNeverSends(later: seq<Interceptor>, request: Request, id: Uuid, output: TaskOutput)
    ensures forall s :: s in SendSpec([AsInterceptor(false)] + later, false, request, id, output).steps ==> !s.Sent?
    ensures var ics := [AsInterceptor(false)] + later;
            var run := ModifyLoop(ics, id, request, false, false, 0);
            run.end.Finished? && (forall i :: 0 <= i < |ics| ==> !ics[i].didReceive(Failure(NoConnectivity), run.end.request)) ==>
              SendSpec(ics, false, request, id, output).steps == run.steps + [Claimed(0), Delivered(Failure(NoConnectivity))]
  {
    var ics := [AsInterceptor(false)] + later;
    var run := ModifyLoop(ics, id, request, false, false, 0);
    SendProperties.ModifyLoopNeverSends(ics, id, request, false, 0);
    if run.end.Finished? {
      assert SendAnswers(ics, run.end.request)[0] == ics[0].willSend(run.end.request).Claim?;
      assert FirstClaim(SendAnswers(ics, run.end.request)) == Some(0);
      SendProperties.PreSendClaimSkipsNetwork(ics, false, request, id, output);
    }
  }

  /** Online, the interceptor is invisible: the pipeline runs as if it overrode nothing. */
  lemma OnlineTransparent(request: Request, id: Uuid, output: TaskOutput)
    ensures SendSpec([AsInterceptor(true)], false, request, id, output).steps == SendSpec([Defaults], false, request, id, output).steps
  {
    var ics := [AsInterceptor(true)];
    var result := TransformToResult(output);
    assert ics[0].modifyRequest(request) == Replied(Some(request));
    assert SendAnswers(ics, request)[0] == ics[0].willSend(request).Claim?;
    assert ReceiveAnswers(ics, result, request)[0] == ics[0].didReceive(result, request);
    assert FirstClaim(SendAnswers(ics, request)).None?;
    assert FirstClaim(ReceiveAnswers(ics, result, request)).None?;
    assert ModifyLoop(ics, id, request, false, false, 1) == Run([], Finished(request, false), false);
    assert ModifyLoop(ics, id, request, false, false, 0).steps == [Modified(0, request)] + [];
    assert PreSendAndNetwork(ics, request, output) == [Sent(request), Delivered(StatusChecked(result))];
    SendProperties.DefaultsAreTransparent(request, id, output);
  }
}
