/**
 * HttpRequest.swift: a request value built from a URL, a host and a path, or an
 * endpoint (a base URL with its own headers) and a path; header merging with a
 * conflict handler; the encodable-body initialisers; the conversion to `URLRequest`;
 * and the get/post/put/patch/delete helpers.
 *
 * `HttpRequest.headerConflictHandler` is a settable static; every builder here takes
 * the value it holds at call time as its `handler` parameter, `KeepFirst` by default.
 */
module HttpRequests {
  import opened Wrappers
  import opened Utf8
  import opened Http

  /** The default conflict handler: on a key present in both maps the first map's value wins. */
  function KeepFirst(a: string, b: string): string { a }

  /** `a.merging(b, uniquingKeysWith: handler)`. */
  function Combining(a: Headers, b: Headers, handler: (string, string) -> string): (m: Headers)
    ensures m.Keys == a.Keys + b.Keys
    ensures forall k :: k in a && k !in b ==> m[k] == a[k]
    ensures forall k :: k in b && k !in a ==> m[k] == b[k]
    ensures forall k :: k in a && k in b ==> m[k] == handler(a[k], b[k])
  {
    map k | k in a.Keys + b.Keys :: if k in a && k in b then handler(a[k], b[k]) else if k in a then a[k] else b[k]
  }

  /** With the default handler every request-side header survives, and the endpoint only adds missing keys. */
  lemma CombiningKeepsFirst(a: Headers, b: Headers)
    ensures forall k :: k in a ==> Combining(a, b, KeepFirst)[k] == a[k]
    ensures forall k :: k in b && k !in a ==> Combining(a, b, KeepFirst)[k] == b[k]
  {
  }

  /** `StaticEndpointInfo`: a base URL and the headers that go with it. */
  datatype EndpointInfo = EndpointInfo(url: string, headers: Headers)

  datatype HttpRequest = HttpRequest(url: string, httpMethod: HttpMethod, headers: Headers, body: Option<Bytes>)

  /** The three ways the initialisers name the target: a URL, a host and a path, an endpoint and a path. */
  datatype Target = Url(url: string) | HostPath(host: string, path: string) | EndpointPath(endpoint: EndpointInfo, path: string)

  /** `init(url:method:headers:rawBody:)` stores its arguments as given. */
  function FromUrl(url: string, httpMethod: HttpMethod, headers: Headers, rawBody: Option<Bytes>): (r: HttpRequest)
    ensures r.url == url && r.httpMethod == httpMethod && r.headers == headers && r.body == rawBody
  {
    HttpRequest(url, httpMethod, headers, rawBody)
  }

  /** `init(host:path:...)`: the URL is the host text followed by the path text. */
  function FromHost(host: string, path: string, httpMethod: HttpMethod, headers: Headers, rawBody: Option<Bytes>): (r: HttpRequest)
    ensures r.url == host + path && r.url[..|host|] == host && r.url[|host|..] == path
    ensures r.httpMethod == httpMethod && r.headers == headers && r.body == rawBody
  {
    FromUrl(host + path, httpMethod, headers, rawBody)
  }

  /**
   * `init(endpoint:path:...)`: the endpoint's URL plus the path, the caller's headers
   * merged with the endpoint's through the conflict handler.
   */
  function FromEndpoint(endpoint: EndpointInfo, path: string, httpMethod: HttpMethod, headers: Headers, rawBody: Option<Bytes>,
                        handler: (string, string) -> string): (r: HttpRequest)
    ensures r.url == endpoint.url + path
    ensures r.headers.Keys == headers.Keys + endpoint.headers.Keys
    ensures forall k :: k in headers && k !in endpoint.headers ==> r.headers[k] == headers[k]
    ensures forall k :: k in endpoint.headers && k !in headers ==> r.headers[k] == endpoint.headers[k]
    ensures forall k :: k in headers && k in endpoint.headers ==> r.headers[k] == handler(headers[k], endpoint.headers[k])
    ensures r.httpMethod == httpMethod && r.body == rawBody
  {
    FromHost(endpoint.url, path, httpMethod, Combining(headers, endpoint.headers, handler), rawBody)
  }

  /** The URL a target names. */
  function TargetUrl(target: Target): string {
    match target
    case Url(url) => url
    case HostPath(host, path) => host + path
    case EndpointPath(endpoint, path) => endpoint.url + path
  }

  /** The headers a target brings of its own: an endpoint's, or none. */
  function TargetHeaders(target: Target): Headers {
    if target.EndpointPath? then target.endpoint.headers else map[]
  }

  /**
   * `m` holds every key of either map; a key of one map only keeps its value, and a
   * shared key gets the handler's choice between the caller's and the base's value.
   */
  predicate MergedWith(m: Headers, headers: Headers, base: Headers, handler: (string, string) -> string) {
    && m.Keys == headers.Keys + base.Keys
    && (forall k :: k in headers && k !in base ==> m[k] == headers[k])
    && (forall k :: k in base && k !in headers ==> m[k] == base[k])
    && (forall k :: k in headers && k in base ==> m[k] == handler(headers[k], base[k]))
  }

  /** `m` holds every caller header as given and every other base header: the keep-first merge, stated by its contents. */
  predicate MergedOver(m: Headers, headers: Headers, base: Headers) {
    && m.Keys == headers.Keys + base.Keys
    && (forall k :: k in headers ==> m[k] == headers[k])
    && (forall k :: k in base && k !in headers ==> m[k] == base[k])
  }

  /** Under the default handler a merge lets the caller win on every shared key. */
  lemma KeepFirstMergesOver(m: Headers, headers: Headers, base: Headers)
    requires MergedWith(m, headers, base, KeepFirst)
    ensures MergedOver(m, headers, base)
  {
    forall k | k in headers
      ensures m[k] == headers[k]
    {
      if k in base {
        assert m[k] == KeepFirst(headers[k], base[k]);
      }
    }
  }

  /**
   * The request the raw-body initialisers build for a target: its URL, the method and
   * body given, the caller's headers merged with the target's through the handler.
   */
  function Make(target: Target, httpMethod: HttpMethod, headers: Headers, rawBody: Option<Bytes>,
                handler: (string, string) -> string): (r: HttpRequest)
    ensures r.url == TargetUrl(target) && r.httpMethod == httpMethod && r.body == rawBody
    ensures MergedWith(r.headers, headers, TargetHeaders(target), handler)
  {
    match target
    case Url(url) => FromUrl(url, httpMethod, headers, rawBody)
    case HostPath(host, path) => FromHost(host, path, httpMethod, headers, rawBody)
    case EndpointPath(endpoint, path) => FromEndpoint(endpoint, path, httpMethod, headers, rawBody, handler)
  }

  /** With the default handler the caller's headers all survive and the target only fills in the rest. */
  lemma MakeKeepsCallerHeaders(target: Target, httpMethod: HttpMethod, headers: Headers, rawBody: Option<Bytes>)
    ensures MergedOver(Make(target, httpMethod, headers, rawBody, KeepFirst).headers, headers, TargetHeaders(target))
  {
    KeepFirstMergesOver(Make(target, httpMethod, headers, rawBody, KeepFirst).headers, headers, TargetHeaders(target));
  }

  /** The content type the encodable initialisers and helpers use when none is given. */
  const DefaultContentType := "application/json"

  /**
   * The encodable initialiser on a URL: the encoder's output becomes the body and
   * Content-Type is set to `contentType`, replacing any value the caller gave. An
   * encoder that throws makes the initialiser throw.
   */
  function FromUrlEncodable(url: string, httpMethod: HttpMethod, headers: Headers, encoded: Result<Bytes, Error>, contentType: string): (r: Result<HttpRequest, Error>)
    ensures encoded.Failure? ==> r == Failure(encoded.error)
    ensures encoded.Success? ==> r.Success? && r.value.url == url && r.value.httpMethod == httpMethod
                                 && r.value.body == Some(encoded.value)
                                 && r.value.headers.Keys == headers.Keys + {"Content-Type"}
                                 && r.value.headers["Content-Type"] == contentType
                                 && forall k :: k in headers && k != "Content-Type" ==> r.value.headers[k] == headers[k]
  {
    match encoded
    case Failure(e) => Failure(e)
    case Success(data) => Success(FromUrl(url, httpMethod, headers["Content-Type" := contentType], Some(data)))
  }

  /**
   * The request the encodable initialisers build for a target: the encoder's failure,
   * or the target's URL with the method given, the encoded body, Content-Type set to
   * `contentType`, and every other header merged through the handler as for `Make`.
   */
  function MakeEncodable(target: Target, httpMethod: HttpMethod, headers: Headers, encoded: Result<Bytes, Error>, contentType: string,
                         handler: (string, string) -> string): (r: Result<HttpRequest, Error>)
    ensures encoded.Failure? ==> r == Failure(encoded.error)
    ensures encoded.Success? ==> r.Success? && r.value.url == TargetUrl(target) && r.value.httpMethod == httpMethod
                                 && r.value.body == Some(encoded.value)
                                 && "Content-Type" in r.value.headers && r.value.headers["Content-Type"] == contentType
                                 && MergedWith(r.value.headers - {"Content-Type"}, headers - {"Content-Type"},
                                               TargetHeaders(target) - {"Content-Type"}, handler)
  {
    match target
    case Url(url) => FromUrlEncodable(url, httpMethod, headers, encoded, contentType)
    case HostPath(host, path) => FromUrlEncodable(host + path, httpMethod, headers, encoded, contentType)
    case EndpointPath(endpoint, path) =>
      FromUrlEncodable(endpoint.url + path, httpMethod, Combining(headers, endpoint.headers, handler), encoded, contentType)
  }

  /** With the default handler every caller header other than Content-Type survives, and the target fills in the rest. */
  lemma MakeEncodableKeepsCallerHeaders(target: Target, httpMethod: HttpMethod, headers: Headers, data: Bytes, contentType: string)
    ensures var r := MakeEncodable(target, httpMethod, headers, Success(data), contentType, KeepFirst);
            r.Success? && MergedOver(r.value.headers - {"Content-Type"}, headers - {"Content-Type"}, TargetHeaders(target) - {"Content-Type"})
  {
    var r := MakeEncodable(target, httpMethod, headers, Success(data), contentType, KeepFirst);
    KeepFirstMergesOver(r.value.headers - {"Content-Type"}, headers - {"Content-Type"}, TargetHeaders(target) - {"Content-Type"});
  }

  /**
   * For an endpoint with an encodable body the endpoint headers are merged first and
   * Content-Type is set afterwards, so the given content type wins over both the
   * caller's and the endpoint's value, whatever the handler; every other shared header
   * gets the handler's choice.
   */
  lemma EndpointEncodableContentTypeWins(endpoint: EndpointInfo, path: string, httpMethod: HttpMethod, headers: Headers, data: Bytes, contentType: string,
                                         handler: (string, string) -> string)
    ensures var r := MakeEncodable(EndpointPath(endpoint, path), httpMethod, headers, Success(data), contentType, handler);
            && r.Success?
            && r.value.url == endpoint.url + path
            && r.value.headers["Content-Type"] == contentType
            && r.value.headers.Keys == headers.Keys + endpoint.headers.Keys + {"Content-Type"}
            && (forall k :: k in headers && k !in endpoint.headers && k != "Content-Type" ==> r.value.headers[k] == headers[k])
            && (forall k :: k in endpoint.headers && k !in headers && k != "Content-Type" ==> r.value.headers[k] == endpoint.headers[k])
            && (forall k :: k in headers && k in endpoint.headers && k != "Content-Type" ==>
                  r.value.headers[k] == handler(headers[k], endpoint.headers[k]))
            && r.value.body == Some(data)
  {
  }

  /** `urlRequest`: the method's raw value, headers and body copied unchanged. */
  function ToUrlRequest(r: HttpRequest): (u: Request)
    ensures u.url == r.url && u.httpMethod == r.httpMethod.rawValue && u.headers == Some(r.headers) && u.body == r.body
  {
    Request(r.url, r.httpMethod.rawValue, Some(r.headers), r.body)
  }

  // The static helpers. The four spellings of each (URL, URL string, host and path,
  // endpoint and path) are one function over `Target`.

  function Get(target: Target, headers: Headers, handler: (string, string) -> string): HttpRequest {
    Make(target, GET, headers, None, handler)
  }
  function Post(target: Target, rawBody: Option<Bytes>, headers: Headers, handler: (string, string) -> string): HttpRequest {
    Make(target, POST, headers, rawBody, handler)
  }
  function Put(target: Target, rawBody: Option<Bytes>, headers: Headers, handler: (string, string) -> string): HttpRequest {
    Make(target, PUT, headers, rawBody, handler)
  }
  function Patch(target: Target, rawBody: Option<Bytes>, headers: Headers, handler: (string, string) -> string): HttpRequest {
    Make(target, PATCH, headers, rawBody, handler)
  }
  function Delete(target: Target, rawBody: Option<Bytes>, headers: Headers, handler: (string, string) -> string): HttpRequest {
    Make(target, DELETE, headers, rawBody, handler)
  }

  function PostEncodable(target: Target, encoded: Result<Bytes, Error>, headers: Headers, contentType: string,
                         handler: (string, string) -> string): Result<HttpRequest, Error> {
    MakeEncodable(target, POST, headers, encoded, contentType, handler)
  }
  function PutEncodable(target: Target, encoded: Result<Bytes, Error>, headers: Headers, contentType: string,
                        handler: (string, string) -> string): Result<HttpRequest, Error> {
    MakeEncodable(target, PUT, headers, encoded, contentType, handler)
  }
  function PatchEncodable(target: Target, encoded: Result<Bytes, Error>, headers: Headers, contentType: string,
                          handler: (string, string) -> string): Result<HttpRequest, Error> {
    MakeEncodable(target, PATCH, headers, encoded, contentType, handler)
  }
  function DeleteEncodable(target: Target, encoded: Result<Bytes, Error>, headers: Headers, contentType: string,
                           handler: (string, string) -> string): Result<HttpRequest, Error> {
    MakeEncodable(target, DELETE, headers, encoded, contentType, handler)
  }

  /**
   * Each raw-body helper builds the request for its target with its own method and the
   * body it is given (none for `get`), the caller's headers merged with the endpoint's
   * through the handler.
   */
  lemma HelpersUseTheirMethod(t: Target, body: Option<Bytes>, headers: Headers, h: (string, string) -> string)
    ensures var r := Get(t, headers, h);
            r.url == TargetUrl(t) && r.httpMethod.rawValue == "GET" && r.body.None? && MergedWith(r.headers, headers, TargetHeaders(t), h)
    ensures var r := Post(t, body, headers, h);
            r.url == TargetUrl(t) && r.httpMethod.rawValue == "POST" && r.body == body && MergedWith(r.headers, headers, TargetHeaders(t), h)
    ensures var r := Put(t, body, headers, h);
            r.url == TargetUrl(t) && r.httpMethod.rawValue == "PUT" && r.body == body && MergedWith(r.headers, headers, TargetHeaders(t), h)
    ensures var r := Patch(t, body, headers, h);
            r.url == TargetUrl(t) && r.httpMethod.rawValue == "PATCH" && r.body == body && MergedWith(r.headers, headers, TargetHeaders(t), h)
    ensures var r := Delete(t, body, headers, h);
            r.url == TargetUrl(t) && r.httpMethod.rawValue == "DELETE" && r.body == body && MergedWith(r.headers, headers, TargetHeaders(t), h)
  {
  }

  /**
   * Each encodable helper throws what the encoder throws; otherwise it builds the request
   * for its target with its own method, the encoded body and the given Content-Type.
   */
  lemma EncodableHelpersUseTheirMethod(t: Target, encoded: Result<Bytes, Error>, headers: Headers, ct: string, h: (string, string) -> string)
    ensures encoded.Failure? ==>
              && PostEncodable(t, encoded, headers, ct, h) == Failure(encoded.error)
              && PutEncodable(t, encoded, headers, ct, h) == Failure(encoded.error)
              && PatchEncodable(t, encoded, headers, ct, h) == Failure(encoded.error)
              && DeleteEncodable(t, encoded, headers, ct, h) == Failure(encoded.error)
    ensures encoded.Success? ==>
              var posted := PostEncodable(t, encoded, headers, ct, h);
              var put := PutEncodable(t, encoded, headers, ct, h);
              var patched := PatchEncodable(t, encoded, headers, ct, h);
              var deleted := DeleteEncodable(t, encoded, headers, ct, h);
              && posted.Success? && posted.value.httpMethod.rawValue == "POST"
              && put.Success? && put.value.httpMethod.rawValue == "PUT"
              && patched.Success? && patched.value.httpMethod.rawValue == "PATCH"
              && deleted.Success? && deleted.value.httpMethod.rawValue == "DELETE"
              && posted.value.url == put.value.url == patched.value.url == deleted.value.url == TargetUrl(t)
              && posted.value.body == put.value.body == patched.value.body == deleted.value.body == Some(encoded.value)
              && posted.value.headers == put.value.headers == patched.value.headers == deleted.value.headers
              && posted.value.headers["Content-Type"] == ct
  {
  }
}
