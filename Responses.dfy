/**
 The value `fetch` hands to its caller (Sources/SwiftFetch/Response.swift): either
 built from a completed exchange (`init(url:data:response:)`) or from an error
 (`init(url:error:status:)`), with the `ok` test and the body accessors.
 */
module Responses {

  import opened Wrappers

  type Bytes = seq<bv8>

  /** A URL; its parsing and structure belong to Foundation and are not modelled. */
  type URL = string

  /** The errors a Response can carry: the library's own, or one the transport reported. */
  datatype Error = NoNetworkConnectionError | TransportError(description: string)

  /**
   The raw `HTTPURLResponse`, reduced to what the library reads from it.
   `allHeaderFields` is `None` when the bridging cast to `[String: String]` fails.
   */
  datatype HTTPURLResponse = HTTPURLResponse(
    statusCode: int,
    url: Option<URL>,
    allHeaderFields: Option<map<string, string>>)

  datatype Response = Response(
    headers: map<string, string>,
    status: int,
    url: URL,
    error: Option<Error>,
    response: Option<HTTPURLResponse>,
    body: Option<Bytes>)

  /** `res.allHeaderFields as? [String: String] ?? [:]`. */
  function HeaderFields(res: HTTPURLResponse): map<string, string> {
    if res.allHeaderFields.Some? then res.allHeaderFields.value else map[]
  }

  /** `res.url ?? url`. */
  function EffectiveURL(requested: URL, res: HTTPURLResponse): URL {
    if res.url.Some? then res.url.value else requested
  }

  /**
   The invariant both initialisers establish: a Response carries an error
   exactly when it carries no raw response; a failed one has no headers and no
   body; a successful one mirrors its raw response's status, headers and URL.
   */
  predicate WellFormed(r: Response) {
    && (r.error.Some? <==> r.response.None?)
    && (r.error.Some? ==> r.headers == map[] && r.body.None?)
    && (r.response.Some? ==>
          && r.status == r.response.value.statusCode
          && r.headers == HeaderFields(r.response.value)
          && (r.response.value.url.Some? ==> r.url == r.response.value.url.value))
  }

  /** `init(url:data:response:)`. */
  function SuccessResponse(url: URL, data: Option<Bytes>, res: HTTPURLResponse): (r: Response)
    ensures WellFormed(r)
    ensures r.error.None? && r.response == Some(res)
    ensures r.status == res.statusCode && r.body == data
    ensures r.url == (if res.url.Some? then res.url.value else url)
    ensures res.allHeaderFields.Some? ==> r.headers == res.allHeaderFields.value
    ensures res.allHeaderFields.None? ==> r.headers == map[]
  {
    Response(HeaderFields(res), res.statusCode, EffectiveURL(url, res), None, Some(res), data)
  }

  /** `init(url:error:status:)`, whose status defaults to -1. */
  function FailureResponse(url: URL, error: Error, status: int := -1): (r: Response)
    ensures WellFormed(r)
    ensures r.error == Some(error) && r.response.None?
    ensures r.headers == map[] && r.body.None?
    ensures r.status == status && r.url == url
  {
    Response(map[], status, url, Some(error), None, None)
  }

  /** The only Responses are those the two initialisers build. */
  lemma WellFormedComesFromAnInitialiser(r: Response)
    requires WellFormed(r)
    ensures r.error.Some? ==> r == FailureResponse(r.url, r.error.value, r.status)
    ensures r.response.Some? ==> r == SuccessResponse(r.url, r.body, r.response.value)
  {
  }

  /** The failure initialiser's status defaults to -1. */
  lemma FailureStatusDefault(url: URL, error: Error)
    ensures FailureResponse(url, error).status == -1
    ensures FailureResponse(url, error) == FailureResponse(url, error, -1)
  {
  }

  /** `ok`: the status is in the range 200-299. */
  predicate Ok(r: Response) {
    r.status >= 200 && r.status <= 299
  }

  /**
   `ok` is exactly "the status is in the 2xx class", so the sentinel statuses
   -1 (transport failure) and -3 (no connectivity) are never ok.
   */
  lemma OkIsTheSuccessClass(r: Response)
    ensures Ok(r) <==> r.status / 100 == 2
    ensures r.status < 0 ==> !Ok(r)
  {
  }

  lemma SentinelStatusesAreNotOk(url: URL, error: Error)
    ensures !Ok(FailureResponse(url, error))
    ensures !Ok(FailureResponse(url, error, -3))
  {
  }

  /** `data`: the stored body. */
  function Data(r: Response): (d: Option<Bytes>)
    ensures d == r.body
  {
    r.body
  }

  /** `data` gives back what the success initialiser stored, and nothing after a failure. */
  lemma DataRoundTrip(url: URL, data: Option<Bytes>, res: HTTPURLResponse, error: Error, status: int)
    ensures Data(SuccessResponse(url, data, res)) == data
    ensures Data(FailureResponse(url, error, status)).None?
  {
  }

  /** `String.Encoding`: only the default, UTF-8, is singled out. */
  datatype StringEncoding = Utf8 | OtherEncoding(name: string)

  /**
   `text(encoding:)`; `decode` stands for `String(data:encoding:)`, which may
   itself fail.
   */
  function Text(r: Response, encoding: StringEncoding, decode: (Bytes, StringEncoding) -> Option<string>): (t: Option<string>)
    ensures Data(r).None? ==> t.None?
    ensures Data(r).Some? ==> t == decode(Data(r).value, encoding)
  {
    match Data(r)
    case None => None
    case Some(data) => decode(data, encoding)
  }

  /** `text`: `text(encoding: .utf8)`. */
  function DefaultText(r: Response, decode: (Bytes, StringEncoding) -> Option<string>): (t: Option<string>)
    ensures t == Text(r, Utf8, decode)
  {
    Text(r, Utf8, decode)
  }

  /** `text` decodes a stored body as UTF-8, and gives nothing when the body is absent. */
  lemma DefaultTextDecodesAsUtf8(url: URL, data: Option<Bytes>, res: HTTPURLResponse,
                                 decode: (Bytes, StringEncoding) -> Option<string>)
    ensures data.Some? ==> DefaultText(SuccessResponse(url, data, res), decode) == decode(data.value, Utf8)
    ensures data.None? ==> DefaultText(SuccessResponse(url, data, res), decode).None?
  {
  }

  /** `json(_:)`; `decode` stands for `JSONDecoder().decode`, `None` when it throws. */
  function Json<T>(r: Response, decode: Bytes -> Option<T>): (v: Option<T>)
    ensures Data(r).None? ==> v.None?
    ensures Data(r).Some? ==> v == decode(Data(r).value)
  {
    match Data(r)
    case None => None
    case Some(data) => decode(data)
  }

  /** Whatever the decoders, a failed Response decodes to nothing. */
  lemma FailuresDecodeToNothing<T>(url: URL, error: Error, status: int,
                                   encoding: StringEncoding,
                                   decodeText: (Bytes, StringEncoding) -> Option<string>,
                                   decodeJson: Bytes -> Option<T>)
    ensures Text(FailureResponse(url, error, status), encoding, decodeText).None?
    ensures DefaultText(FailureResponse(url, error, status), decodeText).None?
    ensures Json(FailureResponse(url, error, status), decodeJson).None?
  {
  }
}
