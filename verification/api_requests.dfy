/**
 * The request builders of Api.swift's extensions, the body helpers it adds to
 * `URLRequest`, and the two decoding `send` variants layered over the pipeline.
 */
module ApiRequests {
  import opened Wrappers
  import opened Utf8
  import opened Http
  import opened HttpRequests
  import ApiPipeline

  /** `request(with:method:headers:)`: the header map is always set, empty when the caller gives none. */
  function RequestWith(url: string, httpMethod: HttpMethod, headers: Headers): (r: Request)
    ensures r.url == url && r.httpMethod == httpMethod.rawValue
    ensures r.headers == Some(headers) && r.body.None?
  {
    Request(url, httpMethod.rawValue, Some(headers), None)
  }

  /** `request(host:path:method:headers:)`: the URL is the host text followed by the path text. */
  function RequestHost(host: string, path: string, httpMethod: HttpMethod, headers: Headers): (r: Request)
    ensures r.url == host + path && r.url[..|host|] == host && r.url[|host|..] == path
    ensures r.httpMethod == httpMethod.rawValue && r.headers == Some(headers) && r.body.None?
  {
    RequestWith(host + path, httpMethod, headers)
  }

  /**
   * `request(endpoint:path:method:headers:)`: the caller's headers are merged with the
   * endpoint's through the Api's configured conflict handler.
   */
  function RequestEndpoint(endpoint: EndpointInfo, path: string, httpMethod: HttpMethod, headers: Headers,
                           handler: (string, string) -> string): (r: Request)
    ensures r.url == endpoint.url + path && r.httpMethod == httpMethod.rawValue && r.body.None?
    ensures r.headers.Some? && r.headers.value.Keys == headers.Keys + endpoint.headers.Keys
    ensures forall k :: k in headers && k !in endpoint.headers ==> r.headers.value[k] == headers[k]
    ensures forall k :: k in endpoint.headers && k !in headers ==> r.headers.value[k] == endpoint.headers[k]
    ensures forall k :: k in headers && k in endpoint.headers ==> r.headers.value[k] == handler(headers[k], endpoint.headers[k])
  {
    RequestHost(endpoint.url, path, httpMethod, Combining(headers, endpoint.headers, handler))
  }

  /**
   * The Api's builders and the `HttpRequest` initialisers agree: when the Api's
   * configured conflict handler and `HttpRequest.headerConflictHandler` are the same
   * function, building through either gives the same `URLRequest`.
   */
  lemma BuildersAgree(url: string, endpoint: EndpointInfo, path: string, httpMethod: HttpMethod, headers: Headers,
                      handler: (string, string) -> string)
    ensures RequestWith(url, httpMethod, headers) == ToUrlRequest(FromUrl(url, httpMethod, headers, None))
    ensures RequestHost(url, path, httpMethod, headers) == ToUrlRequest(FromHost(url, path, httpMethod, headers, None))
    ensures RequestEndpoint(endpoint, path, httpMethod, headers, handler)
            == ToUrlRequest(FromEndpoint(endpoint, path, httpMethod, headers, None, handler))
  {
  }

  /** `add(rawBody:)`: the body is replaced, nothing else changes. */
  function AddRawBody(r: Request, data: Bytes): (u: Request)
    ensures u.body == Some(data)
    ensures u.url == r.url && u.httpMethod == r.httpMethod && u.headers == r.headers
  {
    r.(body := Some(data))
  }

  /** Adding a body twice keeps only the second. */
  lemma AddRawBodyLastWins(r: Request, first: Bytes, second: Bytes)
    ensures AddRawBody(AddRawBody(r, first), second) == AddRawBody(r, second)
  {
  }

  /** The MIME type `add(encodable:)` uses when none is given. */
  const DefaultMimeType := "application/json"

  /**
   * `add(encodable:encoder:mimeType:)` as written: a throwing encoder makes it throw;
   * otherwise the body is set, and Content-Type is set only when the request had no
   * header map, because an existing map is changed in a local copy that is dropped.
   */
  function AddEncodable(r: Request, encoded: Result<Bytes, Error>, mimeType: string): (u: Result<Request, Error>)
    ensures encoded.Failure? ==> u == Failure(encoded.error)
    ensures encoded.Success? ==> u.Success? && u.value.body == Some(encoded.value)
                                 && u.value.url == r.url && u.value.httpMethod == r.httpMethod
    ensures encoded.Success? && r.headers.Some? ==> u.value.headers == r.headers
    ensures encoded.Success? && r.headers.None? ==> u.value.headers == Some(map["Content-Type" := mimeType])
  {
    match encoded
    case Failure(e) => Failure(e)
    case Success(data) =>
      var withType := if r.headers.Some? then r else r.(headers := Some(map["Content-Type" := mimeType]));
      Success(AddRawBody(withType, data))
  }

  /** A request built by the Api's builders always has a header map, so `add(encodable:)` never sets its Content-Type. */
  lemma AddEncodableMissesContentType(url: string, httpMethod: HttpMethod, headers: Headers, data: Bytes, mimeType: string)
    requires "Content-Type" !in headers
    ensures var u := AddEncodable(RequestWith(url, httpMethod, headers), Success(data), mimeType);
            u.Success? && u.value.headers.Some? && "Content-Type" !in u.value.headers.value
  {
  }

  /** The evidently intended `add(encodable:)`: Content-Type is set on the request's own header map, existing or new. */
  function AddEncodableCorrected(r: Request, encoded: Result<Bytes, Error>, mimeType: string): (u: Result<Request, Error>)
    ensures encoded.Failure? ==> u == Failure(encoded.error)
    ensures encoded.Success? ==> u.Success? && u.value.body == Some(encoded.value)
                                 && u.value.url == r.url && u.value.httpMethod == r.httpMethod
                                 && u.value.headers.Some? && "Content-Type" in u.value.headers.value
                                 && u.value.headers.value["Content-Type"] == mimeType
                                 && u.value.headers.value.Keys == r.headers.GetOr(map[]).Keys + {"Content-Type"}
                                 && forall k :: k in r.headers.GetOr(map[]) && k != "Content-Type" ==>
                                      u.value.headers.value[k] == r.headers.GetOr(map[])[k]
  {
    match encoded
    case Failure(e) => Failure(e)
    case Success(data) => Success(AddRawBody(r.(headers := Some(r.headers.GetOr(map[])["Content-Type" := mimeType])), data))
  }

  /**
   * The corrected helper agrees with the encodable `HttpRequest` initialiser: adding
   * an encodable body to a built request is the same as building it with one.
   */
  lemma AddEncodableCorrectedMatchesInitialiser(url: string, httpMethod: HttpMethod, headers: Headers,
                                                encoded: Result<Bytes, Error>, mimeType: string)
    ensures var added := AddEncodableCorrected(RequestWith(url, httpMethod, headers), encoded, mimeType);
            var built := FromUrlEncodable(url, httpMethod, headers, encoded, mimeType);
            && (added.Success? <==> built.Success?)
            && (added.Success? ==> added.value == ToUrlRequest(built.value))
            && (added.Failure? ==> added.error == built.error)
  {
  }

  /** The two versions differ exactly when the request already had a header map whose Content-Type is not `mimeType`. */
  lemma AddEncodableVersionsDiffer(r: Request, data: Bytes, mimeType: string)
    ensures AddEncodable(r, Success(data), mimeType) != AddEncodableCorrected(r, Success(data), mimeType)
            <==> r.headers.Some? && ("Content-Type" !in r.headers.value || r.headers.value["Content-Type"] != mimeType)
  {
    if r.headers.Some? && "Content-Type" in r.headers.value && r.headers.value["Content-Type"] == mimeType {
      assert r.headers.value["Content-Type" := mimeType] == r.headers.value;
    }
  }

  /** `decoder ?? config.decoder`: the decoder given with the call, or else the Api's configured one. */
  function ChooseDecoder<T>(given: Option<Bytes -> Result<T, Error>>, configured: Bytes -> Result<T, Error>): (d: Bytes -> Result<T, Error>)
    ensures given.Some? ==> d == given.value
    ensures given.None? ==> d == configured
  {
    given.GetOr(configured)
  }

  /**
   * The completion of the decoding `send(_:decoder:completion:)`: a delivered
   * response whose data decodes becomes an `HttpResponse<T>`; data that does not
   * decode becomes `serializationFailed` carrying the response; a failure passes on.
   */
  function DecodeResult<T>(result: DataResult, decode: Bytes -> Result<T, Error>): (r: Result<DecodedResponse<T>, Error>)
    ensures result.Failure? ==> r == Failure(result.error)
    ensures result.Success? && decode(result.value.data).Success? ==>
              r.Success? && r.value.raw == result.value && r.value.body == decode(result.value.data).value
    ensures result.Success? && decode(result.value.data).Failure? ==>
              r == Failure(SerializationFailed(decode(result.value.data).error, result.value))
  {
    match result
    case Failure(e) => Failure(e)
    case Success(response) =>
      match decode(response.data)
      case Success(body) => Success(MakeDecodedResponse(response, body))
      case Failure(e) => Failure(SerializationFailed(e, response))
  }

  /** The body-only `send`: the decoded body, or the same error. */
  function BodyOnly<T>(r: Result<DecodedResponse<T>, Error>): (b: Result<T, Error>)
    ensures r.Success? <==> b.Success?
    ensures r.Success? ==> b.value == r.value.body
    ensures r.Failure? ==> b.error == r.error
  {
    match r
    case Success(response) => Success(response.body)
    case Failure(e) => Failure(e)
  }

  /**
   * Over the pipeline's status check, a decoded success always comes from a 2xx
   * reply, and a non-2xx reply is reported as `badStatusCode` without decoding.
   */
  lemma DecodedSuccessIsTwoHundredClass<T>(result: DataResult, decode: Bytes -> Result<T, Error>)
    ensures var r := DecodeResult(ApiPipeline.StatusChecked(result), decode);
            && (r.Success? ==> result.Success? && Successful(result.value) && r.value.raw == result.value)
            && (result.Success? && !Successful(result.value) ==> r == Failure(BadStatusCode(result.value)))
  {
  }
}
