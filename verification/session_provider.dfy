/**
 * OAuthProvider.swift (the core package, used by both of its OAuth interceptors): what
 * an interceptor reads from its provider, and the default `modify(request:token:)`.
 */
module SessionProviders {
  import opened Wrappers
  import opened Http
  import opened BearerAttach
  import opened HttpRequests

  /**
   * A provider as one hook call sees it: whether a previous sign-in exists, the
   * current token, and how a token is put into a request. Renewal
   * (`restorePreviousSignIn`) is an outcome handed to the hook that asks for it.
   */
  datatype SessionProvider = SessionProvider(hasPreviousSignIn: bool, token: Option<string>, modifyRequest: (Request, string) -> Request)

  /**
   * The default `modify(request:token:)` as written. Without a header map the request
   * gets `Authorization: Bearer <token>`; with one, the update goes to a local copy of
   * the map that is then dropped, so the request comes back unchanged.
   */
  function DefaultModify(request: Request, token: string): (r: Request)
    ensures request.headers.None? ==> r == request.(headers := Some(map[Authorization := Bearer(token)]))
    ensures request.headers.Some? ==> r == request
  {
    var bearerToken := Bearer(token);
    if request.headers.Some? then
      var headers := request.headers.value[Authorization := bearerToken];
      request
    else
      request.(headers := Some(map[Authorization := bearerToken]))
  }

  /** The default provider modify: a stale bearer header survives a renewal, and a header map without one gets none. */
  lemma DefaultModifyIgnoresExistingHeaders(token: string)
    requires token != "old"
    ensures var stale := Request("https://api.example.com/me", "GET", Some(map[Authorization := "Bearer old"]), None);
            DefaultModify(stale, token).headers.value[Authorization] == "Bearer old" != Bearer(token)
    ensures var plain := Request("https://api.example.com/me", "GET", Some(map["Accept" := "application/json"]), None);
            Authorization !in DefaultModify(plain, token).headers.value
  {
    assert Bearer(token)[7..] == token;
  }

  /**
   * Every request built by `HttpRequest` carries a header map, so the default modify
   * never authorises one of them.
   */
  lemma DefaultModifyNeverAuthorizesLibraryRequests(r: HttpRequest, token: string)
    ensures DefaultModify(ToUrlRequest(r), token) == ToUrlRequest(r)
  {
  }

  /** The evidently intended modify: the bearer header is always set, whatever the request had. */
  function ModifyCorrected(request: Request, token: string): (r: Request)
    ensures r.headers.Some? && Authorization in r.headers.value && r.headers.value[Authorization] == Bearer(token)
    ensures r.url == request.url && r.httpMethod == request.httpMethod && r.body == request.body
    ensures request.headers.Some? ==>
              forall k :: k in request.headers.value && k != Authorization ==> k in r.headers.value && r.headers.value[k] == request.headers.value[k]
  {
    AttachToken(token, request)
  }

  /**
   * The two agree exactly on requests without a header map and on requests that
   * already carry this very bearer token.
   */
  lemma ModifyCorrectedAgreement(request: Request, token: string)
    ensures DefaultModify(request, token) == ModifyCorrected(request, token)
            <==> request.headers.None?
                 || (Authorization in request.headers.value && request.headers.value[Authorization] == Bearer(token))
  {
    if request.headers.Some? {
      assert Authorization in ModifyCorrected(request, token).headers.value;
      if Authorization in request.headers.value && request.headers.value[Authorization] == Bearer(token) {
        assert request.headers.value[Authorization := Bearer(token)] == request.headers.value;
      }
    }
  }
}
