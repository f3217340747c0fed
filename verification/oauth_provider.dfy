/**
 * OAuthProvider.swift (the OAuth package): the default `attach(token:to:)`, which
 * puts the token into the `Authorization` header as a bearer credential
 * (RFC 6750, section 2.1).
 */
module BearerAttach {
  import opened Wrappers
  import opened Http

  const Authorization := "Authorization"

  function Bearer(token: string): string {
    "Bearer " + token
  }

  /**
   * The header map gains (or has replaced) `Authorization: Bearer <token>`; every
   * other header, the URL, the method and the body stay as they were. A request
   * without a header map gets a map holding that single header.
   */
  function AttachToken(token: string, request: Request): (r: Request)
    ensures r.url == request.url && r.httpMethod == request.httpMethod && r.body == request.body
    ensures r.headers.Some? && Authorization in r.headers.value
    ensures r.headers.value[Authorization] == "Bearer " + token
    ensures request.headers.None? ==> r.headers.value.Keys == {Authorization}
    ensures request.headers.Some? ==> r.headers.value.Keys == request.headers.value.Keys + {Authorization}
    ensures request.headers.Some? ==>
              forall k :: k in request.headers.value && k != Authorization ==> r.headers.value[k] == request.headers.value[k]
  {
    var bearerToken := Bearer(token);
    if request.headers.Some? then
      request.(headers := Some(request.headers.value[Authorization := bearerToken]))
    else
      request.(headers := Some(map[Authorization := bearerToken]))
  }

  /** Attaching the same token twice gives the same request as attaching it once. */
  lemma AttachIdempotent(token: string, request: Request)
    ensures AttachToken(token, AttachToken(token, request)) == AttachToken(token, request)
  {
    var once := AttachToken(token, request);
    assert once.headers.value[Authorization := Bearer(token)] == once.headers.value;
  }

  /** Attaching a second token replaces the first: only the latest token is presented. */
  lemma AttachLastTokenWins(t1: string, t2: string, request: Request)
    ensures AttachToken(t2, AttachToken(t1, request)) == AttachToken(t2, request)
  {
    var once := AttachToken(t1, request);
    var twice := AttachToken(t2, once);
    var direct := AttachToken(t2, request);
    assert twice.headers.value == direct.headers.value;
  }
}
