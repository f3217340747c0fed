/**
 * ApiInterceptor.swift: the three hooks an interceptor offers the pipeline, as the
 * answers it gives for one request, and the defaults of the protocol extension.
 */
module ApiInterceptors {
  import opened Wrappers
  import opened Http

  /**
   * What a modify hook does with `onNewRequest`: call it with a request (continue),
   * call it with nil (cancel), or never call it.
   */
  datatype ModifyReply = Replied(request: Option<Request>) | NoReply

  /**
   * What a pre-send hook does: return false, or return true having taken over the
   * completion, which it may call with a result (`completion`) or never call.
   */
  datatype PreSendReply = Pass | Claim(completion: Option<DataResult>)

  datatype Interceptor = Interceptor(
    modifyRequest: Request -> ModifyReply,
    willSend: Request -> PreSendReply,
    didReceive: (DataResult, Request) -> bool)

  /** The default modify hook calls `onNewRequest` once, with the request unchanged. */
  function DefaultModifyRequest(request: Request): (reply: ModifyReply)
    ensures reply.Replied? && reply.request == Some(request)
  {
    Replied(Some(request))
  }

  /** The default pre-send hook returns false and never calls the completion. */
  function DefaultWillSend(request: Request): (reply: PreSendReply)
    ensures !reply.Claim?
  {
    Pass
  }

  /** The default response hook returns false and never calls the completion. */
  function DefaultDidReceive(result: DataResult, request: Request): (claimed: bool)
    ensures !claimed
  {
    false
  }

  /** An interceptor that overrides nothing. */
  const Defaults := Interceptor(DefaultModifyRequest, DefaultWillSend, DefaultDidReceive)
}
