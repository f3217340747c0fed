/**
 * The values that travel through the library: requests (Foundation's `URLRequest`),
 * responses (`HTTPURLResponse` wrapped by `HttpDataResponse`), HTTP methods and the
 * errors the library raises or passes on. The computed properties of
 * `HttpDataResponse` (HttpResponse.swift) are modelled here too.
 */
module Http {
  import opened Wrappers
  import opened Utf8

  type Headers = map<string, string>

  /** A request identifier; a UUID is represented by its string form. */
  type Uuid = string

  /** HttpMethod is a raw-value wrapper; the library predefines five of them. */
  datatype HttpMethod = HttpMethod(rawValue: string)
  const GET := HttpMethod("GET")
  const PUT := HttpMethod("PUT")
  const POST := HttpMethod("POST")
  const PATCH := HttpMethod("PATCH")
  const DELETE := HttpMethod("DELETE")

  /**
   * A `URLRequest` as the library uses it: the URL (as text), the method's raw value,
   * the optional header map `allHTTPHeaderFields` and the optional body.
   */
  datatype Request = Request(url: string, httpMethod: string, headers: Option<Headers>, body: Option<Bytes>)

  /**
   * An `HTTPURLResponse`: status code, header fields in the order the dictionary
   * enumerates them, and Foundation's own description text.
   */
  datatype HttpUrlResponse = HttpUrlResponse(statusCode: int, allHeaderFields: seq<(string, string)>, description: string)

  /** What a data task hands back as its response: an HTTP response or some other kind. */
  datatype UrlResponse = HttpResponse(http: HttpUrlResponse) | OtherResponse

  /** `HttpDataResponse`: the raw response and its body bytes. */
  datatype DataResponse = DataResponse(response: HttpUrlResponse, data: Bytes)

  /**
   * Errors. `BadStatusCode`, `SerializationFailed`, `NotHttpRequest` and `Cancelled`
   * are `ApiError`; `NoToken` and `FailedToRenew` are `OAuthError`; `GoogleUnknown`,
   * `MonkeyingAround` and `NoConnectivity` belong to the Google provider, the chaos
   * and the connectivity interceptors. `External` stands for any error raised outside
   * the library (URLSession, an encoder or decoder, a sign-in SDK).
   */
  datatype Error =
    | BadStatusCode(response: DataResponse)
    | SerializationFailed(cause: Error, response: DataResponse)
    | NotHttpRequest
    | Cancelled(request: Request, id: Uuid)
    | NoToken
    | FailedToRenew
    | GoogleUnknown
    | MonkeyingAround
    | NoConnectivity
    | External(code: int)

  /** What a completion handler of the pipeline receives. */
  type DataResult = Result<DataResponse, Error>

  function StatusCode(r: DataResponse): int {
    r.response.statusCode
  }

  predicate Successful(r: DataResponse) {
    200 <= r.response.statusCode <= 299
  }

  /** `statusCode` forwards the wrapped response's code; `successful` is the 2xx class (RFC 9110, section 15.3). */
  lemma SuccessfulIsTwoHundredClass(r: DataResponse)
    ensures StatusCode(r) == r.response.statusCode
    ensures Successful(r) <==> 200 <= StatusCode(r) < 300
    ensures StatusCode(r) == 401 ==> !Successful(r)
  {
  }

  function LowerChar(c: char): char {
    if 'A' <= c <= 'Z' then (c as int + 32) as char else c
  }

  /** `lowercased()`, restricted to ASCII letters. */
  function Lowercased(s: string): (r: string)
    ensures |r| == |s|
    ensures forall i :: 0 <= i < |s| ==> r[i] == LowerChar(s[i])
  {
    if s == [] then [] else [LowerChar(s[0])] + Lowercased(s[1..])
  }

  /** Value of the first field, in enumeration order, whose lowercased name is `lowerField`. */
  function FirstMatch(fields: seq<(string, string)>, lowerField: string): (r: Option<string>)
    ensures r.None? <==> forall i :: 0 <= i < |fields| ==> Lowercased(fields[i].0) != lowerField
    ensures r.Some? ==> exists i :: 0 <= i < |fields| && Lowercased(fields[i].0) == lowerField
                                 && fields[i].1 == r.value
                                 && forall j :: 0 <= j < i ==> Lowercased(fields[j].0) != lowerField
  {
    if fields == [] then None
    else if Lowercased(fields[0].0) == lowerField then Some(fields[0].1)
    else
      FirstMatch(fields[1..], lowerField)
  }

  /**
   * `value(forHTTPHeaderField:)` on its pre-iOS-13 path: the first header whose name
   * equals `field` once both are lowercased, or None.
   */
  function HeaderValue(r: DataResponse, field: string): (v: Option<string>)
    ensures var fields := r.response.allHeaderFields;
            && (v.None? <==> forall i :: 0 <= i < |fields| ==> Lowercased(fields[i].0) != Lowercased(field))
            && (v.Some? ==> exists i :: 0 <= i < |fields| && Lowercased(fields[i].0) == Lowercased(field)
                                        && fields[i].1 == v.value
                                        && forall j :: 0 <= j < i ==> Lowercased(fields[j].0) != Lowercased(field))
  {
    FirstMatch(r.response.allHeaderFields, Lowercased(field))
  }

  /** Header lookup ignores the casing of the requested field name (RFC 9110, section 5.1). */
  lemma {:induction false} HeaderValueIgnoresCase(r: DataResponse, f1: string, f2: string)
    requires |f1| == |f2|
    requires forall i :: 0 <= i < |f1| ==> LowerChar(f1[i]) == LowerChar(f2[i])
    ensures HeaderValue(r, f1) == HeaderValue(r, f2)
  {
    assert Lowercased(f1) == Lowercased(f2);
  }

  /** `description`: Foundation's text, then a blank line and the body when it is UTF-8. */
  function Description(r: DataResponse): (d: string)
    ensures Decode(r.data).None? ==> d == r.response.description
    ensures Decode(r.data).Some? ==> d == r.response.description + "\n\n " + Decode(r.data).value
  {
    var message := r.response.description;
    match Decode(r.data)
    case Some(text) => message + "\n\n " + text
    case None => message
  }

  /** A body written as UTF-8 text always shows up verbatim in the description. */
  lemma DescriptionShowsTextBody(resp: HttpUrlResponse, text: string)
    ensures Description(DataResponse(resp, Encode(text))) == resp.description + "\n\n " + text
  {
    DecodeEncode(text);
  }

  /** `HttpResponse<T>`: the raw response and data plus the decoded body. */
  datatype DecodedResponse<T> = DecodedResponse(raw: DataResponse, body: T)

  /** `HttpResponse(rawResponse:body:)` keeps the raw response and data unchanged. */
  function MakeDecodedResponse<T>(raw: DataResponse, body: T): (r: DecodedResponse<T>)
    ensures r.raw.response == raw.response && r.raw.data == raw.data && r.body == body
  {
    DecodedResponse(DataResponse(raw.response, raw.data), body)
  }
}
