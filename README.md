# SwiftFetch, modelled in Dafny

SwiftFetch is a small typed layer over Foundation's HTTP client. Most of it is
plain tables:

- `HTTPMethod` maps each method to its raw string.
- `HTTPAuthorization`, `HTTPContentEncoding` and `HTTPContentType` map each case to the string it puts on the wire (`typeString`).
- `HTTPHeader.createHeader()` turns a typed header into a `(name, value)` pair.

`Response` is an immutable value built by one of two initialisers: success or failure.

`fetch` is the entry point:

1. It gives up with status -3 when there is no network.
2. It flattens the headers into a dictionary.
3. It builds the request.
4. It makes up to three sequential attempts. It delivers the first `ok` Response, or else the last one.

The model follows the source file by file:

| file | module | what it holds |
|---|---|---|
| `Wrappers.dfy` | `Wrappers` | `Option` |
| `HttpGrammar.dfy` | `HttpGrammar` | `token`/`tchar` (RFC 9110, section 5.6.2), ASCII case, and a string fingerprint used in distinctness proofs |
| `Methods.dfy` | `Methods` | `HTTPMethod`, its raw values and `init?(rawValue:)` |
| `AuthorizationSchemes.dfy` | `AuthorizationSchemes` | `HTTPAuthorization.typeString` |
| `ContentEncodings.dfy` | `ContentEncodings` | `HTTPContentEncoding.typeString` |
| `ContentTypes.dfy` | `ContentTypes` | `HTTPContentType.typeString` |
| `Headers.dfy` | `Headers` | `HTTPHeader.createHeader()` and the decimal text of an `Int64` |
| `Responses.dfy` | `Responses` | `Response` and its accessors |
| `SwiftFetch.dfy` | `SwiftFetch` | the `fetch` overloads |

The tables and `Response` are pure, so they are datatypes and functions. The
retry loop of `fetch` changes variables step by step, so it is a method.

- **Loop state.** The method is `SwiftFetch.Attempts`. It has a `while` loop over a local `response: Option<Response>`, exactly as in the Swift code, and an early return on `ok`.
- **Specification.** The loop is proved equal to the recursive function `RetryFrom`. It also meets `RetryContract`, which spells out what the loop promises.
- **Transport.** The transport is a function `transport: nat -> AttemptOutcome`: `transport(k)` is what the k-th attempt reports. Connectivity is the flag `connected`.

Where the code may surprise a reader, the model follows it as written:

- **Duplicate header names.** Flattening uses `Dictionary(uniqueKeysWithValues:)`, which traps on a repeated name rather than keeping the last value. In the model this is the precondition `DistinctNames`, which compares names character by character (see "## Left out" for canonically equivalent Unicode names). `SwiftFetch.RepeatedCustomNameTraps` shows that `[("A", "1"), ("A", "2")]` does not meet it.
- **Empty strings.** Nothing checks the payloads: the custom arms pass any string through, including the empty one. One of the proved lemmas shows an empty header name.
- **The content-length header.** It is named literally `contentLength`, although its doc comment (HTTPHeader.swift:37) speaks of the Content-Length entity header.

## Model

| member | source | states |
|---|---|---|
| Methods.FromRawValue | Sources/SwiftFetch/HTTPMethod.swift:10-31 | the synthesized `init?(rawValue:)`: a result is a method whose raw value is the input; absent means no method has that raw value |
| Methods.RawValueIsUpperCaseName | Sources/SwiftFetch/HTTPMethod.swift:13-31 | each raw value is the ASCII upper-case form of the case name (GET for get, ...) |
| Methods.RawValueInjective | Sources/SwiftFetch/HTTPMethod.swift:13-31 | two methods have the same raw value iff they are the same method |
| Methods.RawValueRoundTrip | Sources/SwiftFetch/HTTPMethod.swift:10 | `HTTPMethod(rawValue: m.rawValue) == m` for every method |
| Methods.ParsingIsCaseSensitive | Sources/SwiftFetch/HTTPMethod.swift:10-31 | the lower-case spelling of every method (e.g. "get") parses to absent |
| Methods.RawValueIsUpperCaseToken | Sources/SwiftFetch/HTTPMethod.swift:13-31 | every raw value is a non-empty run of upper-case ASCII letters, hence a token |
| AuthorizationSchemes.FixedSchemeNames | Sources/SwiftFetch/HTTPAuthorization.swift:27-29 | basic, bearer and digest give "Basic", "Bearer" and "Digest" |
| AuthorizationSchemes.CustomIsVerbatim | Sources/SwiftFetch/HTTPAuthorization.swift:30 | `.custom(s)` gives `s` unchanged, the empty string included |
| AuthorizationSchemes.FixedSchemesAreDistinctTokens | Sources/SwiftFetch/HTTPAuthorization.swift:27-29 | the three fixed schemes are tokens without spaces, and equal strings iff equal schemes |
| AuthorizationSchemes.CollisionsNeedTheCustomArm | Sources/SwiftFetch/HTTPAuthorization.swift:27-30 | two different schemes share a string only if one is custom; every fixed scheme is spelled again by a custom one |
| AuthorizationSchemes.CustomBearerCollides | Sources/SwiftFetch/HTTPAuthorization.swift:28-30 | `.custom("Bearer")` differs from `.bearer` yet gives the same string |
| ContentEncodings.FixedCodingNames | Sources/SwiftFetch/HTTPContentEncoding.swift:35-39 | gzip, deflate, identity and br give their own names; any gives "*" |
| ContentEncodings.NamedCodingsAreLowerCase | Sources/SwiftFetch/HTTPContentEncoding.swift:35-38 | the four named codings are non-empty lower-case ASCII words |
| ContentEncodings.CustomIsVerbatim | Sources/SwiftFetch/HTTPContentEncoding.swift:29-40 | `.custom(s)` gives `s` unchanged, e.g. a whole weighted list "deflate, gzip;q=1.0, *;q=0.5" |
| ContentEncodings.FixedCodingsAreDistinctTokens | Sources/SwiftFetch/HTTPContentEncoding.swift:35-39 | the five fixed codings are tokens, and equal strings iff equal codings |
| ContentEncodings.CollisionsNeedTheCustomArm | Sources/SwiftFetch/HTTPContentEncoding.swift:35-40 | two different codings share a string only if one is custom |
| ContentEncodings.CustomGzipCollides | Sources/SwiftFetch/HTTPContentEncoding.swift:35-40 | `.custom("gzip")` differs from `.gzip` yet gives the same string |
| ContentTypes.FixedTypeStringShape | Sources/SwiftFetch/HTTPContentType.swift:44-75 | every fixed variant's string is `top/sub`: top one of application, audio, image, text, video, font; a non-empty subtype without '/' |
| ContentTypes.TopLevelTypesHaveNoSlash | Sources/SwiftFetch/HTTPContentType.swift:44-75 | top-level types are non-empty and '/'-free, so a fixed string has exactly one '/' |
| ContentTypes.FixedTypeStringExamples | Sources/SwiftFetch/HTTPContentType.swift:54-57 | `.json` gives "application/json" and `.ico` gives "image/vnd.microsoft.icon" |
| ContentTypes.FixedTypeStringsDistinct | Sources/SwiftFetch/HTTPContentType.swift:44-75 | two fixed variants give the same string iff they are the same variant |
| ContentTypes.FamilyArmPrefix | Sources/SwiftFetch/HTTPContentType.swift:76-80 | a family arm gives its top-level type, '/', then its payload |
| ContentTypes.CustomIsVerbatim | Sources/SwiftFetch/HTTPContentType.swift:81 | `.custom(s)` gives `s` unchanged |
| ContentTypes.SlashSplitUnique | Sources/SwiftFetch/HTTPContentType.swift:76-80 | `p/x` with a '/'-free `p` determines `p` and `x` |
| ContentTypes.FamilyArmsInjective | Sources/SwiftFetch/HTTPContentType.swift:76-80 | two family arms give the same string iff same arm and same payload (so `.image(a)`, `.image(b)` collide iff a == b) |
| ContentTypes.FamilyArmFor | Sources/SwiftFetch/HTTPContentType.swift:76-80 | for each top-level type other than font there is a family arm with that prefix and any given payload |
| ContentTypes.FamilyArmSpells | Sources/SwiftFetch/HTTPContentType.swift:76-80 | that arm spells every `top/sub` string |
| ContentTypes.FamilyArmSpellsFixedVariant | Sources/SwiftFetch/HTTPContentType.swift:44-80 | every fixed variant outside font is spelled again by a different value, its family arm |
| ContentTypes.JsonCollidesWithApplicationJson | Sources/SwiftFetch/HTTPContentType.swift:57-76 | `.json` and `.application("json")` differ yet both give "application/json" |
| ContentTypes.FixedFamilyCollision | Sources/SwiftFetch/HTTPContentType.swift:44-80 | a fixed variant and a family arm collide only on the fixed variant's own top and subtype |
| ContentTypes.CollisionsCharacterized | Sources/SwiftFetch/HTTPContentType.swift:42-83 | all collisions: different values share a string only via the custom arm or a fixed variant against its own family arm |
| Headers.NatToDecimal | Sources/SwiftFetch/HTTPHeader.swift:67-68 | the decimal text of a magnitude is a non-empty digit string without a leading zero |
| Headers.NatToDecimalRoundTrip | Sources/SwiftFetch/HTTPHeader.swift:67-68 | reading the digits back gives the number |
| Headers.Int64DescriptionRoundTrip | Sources/SwiftFetch/HTTPHeader.swift:67-68 | `"\(value)"` starts with '-' iff the value is negative and reads back as the value |
| Headers.AuthorizationHeaderJoins | Sources/SwiftFetch/HTTPHeader.swift:55-56 | `.authorization(t, v)` gives ("Authorization", t.typeString + " " + v) |
| Headers.SplitAtFirstSpace | Sources/SwiftFetch/HTTPHeader.swift:55-56 | a split is a space-free prefix, a space and the rest; no split means no space |
| Headers.SplitJoinedScheme | Sources/SwiftFetch/HTTPHeader.swift:55-56 | splitting `scheme + " " + credentials` at the first space gives both back when the scheme has no space |
| Headers.AuthorizationValueSplits | Sources/SwiftFetch/HTTPHeader.swift:55-56 | with a fixed scheme the value splits back into scheme name and credentials, joined by exactly one space |
| Headers.CustomSchemeWithSpaceIsAmbiguous | Sources/SwiftFetch/HTTPHeader.swift:55-56 | a custom scheme "Bearer x" with "y" gives the same value as bearer with "x y" |
| Headers.TypedValuesComeFromTheTables | Sources/SwiftFetch/HTTPHeader.swift:57-72 | accept/contentType take `HTTPContentType.typeString`, acceptEncoding/contentEncoding take `HTTPContentEncoding.typeString` |
| Headers.StringValuesPassThrough | Sources/SwiftFetch/HTTPHeader.swift:61-78 | the six String-carrying headers pass their value through unchanged |
| Headers.ContentLengthHeader | Sources/SwiftFetch/HTTPHeader.swift:67-68 | `.contentLength(n)` is named "contentLength" (not "Content-Length"), its value reads back as n and begins with '-' iff n < 0 |
| Headers.CustomHeaderIsVerbatim | Sources/SwiftFetch/HTTPHeader.swift:79-80 | `.custom(h, v)` is exactly (h, v); the name may be empty |
| Headers.NameDependsOnlyOnCase | Sources/SwiftFetch/HTTPHeader.swift:53-78 | for non-custom headers the name depends on the case, never the payload |
| Headers.StandardNamesAreDistinctTokens | Sources/SwiftFetch/HTTPHeader.swift:53-78 | the 12 non-custom names are tokens, and two of them are equal iff same case |
| Responses.SuccessResponse | Sources/SwiftFetch/Response.swift:46-53 | well-formed, no error, the raw response kept, status = statusCode, body = data, url = res.url ?? url, headers = allHeaderFields or empty |
| Responses.FailureResponse | Sources/SwiftFetch/Response.swift:61-68 | well-formed, error kept, no raw response, empty headers, no body, the given status and url |
| Responses.WellFormedComesFromAnInitialiser | Sources/SwiftFetch/Response.swift:46-68 | every well-formed Response is exactly what one of the two initialisers builds from its own fields |
| Responses.FailureStatusDefault | Sources/SwiftFetch/Response.swift:61 | without a status the failure initialiser uses -1 |
| Responses.OkIsTheSuccessClass | Sources/SwiftFetch/Response.swift:71-73 | `ok` holds iff the status is in the 2xx class; negative statuses are never ok |
| Responses.SentinelStatusesAreNotOk | Sources/SwiftFetch/Response.swift:61-73 | failures with status -1 or -3 are not ok |
| Responses.DataRoundTrip | Sources/SwiftFetch/Response.swift:46-81 | `data` returns what the success initialiser stored, and nothing after a failure |
| Responses.Text | Sources/SwiftFetch/Response.swift:92-97 | absent body gives absent text; otherwise the decoder's result |
| Responses.DefaultTextDecodesAsUtf8 | Sources/SwiftFetch/Response.swift:85-97 | `text` of a success Response is the UTF-8 decoding of its stored body, and absent when no body was stored |
| Responses.Json | Sources/SwiftFetch/Response.swift:102-112 | absent body gives absent value; otherwise the decoder's result |
| Responses.FailuresDecodeToNothing | Sources/SwiftFetch/Response.swift:93-105 | whatever the decoders, a failed Response gives no text (with any encoding or the default one) and no JSON value |
| SwiftFetch.AttemptResponse | Sources/SwiftFetch/SwiftFetch.swift:33-40 | a transport error gives a well-formed failure with status -1 carrying that error and the requested url; a completion gives exactly the success Response of its data and response (so its url falls back to the requested one) |
| SwiftFetch.TransportErrorsAreRetried | Sources/SwiftFetch/SwiftFetch.swift:33-44 | a transport error is never ok |
| SwiftFetch.Pairs | Sources/SwiftFetch/SwiftFetch.swift:23 | one `createHeader` pair per header, in order |
| SwiftFetch.UniqueKeysDictionary | Sources/SwiftFetch/SwiftFetch.swift:23 | with distinct keys, the dictionary has exactly those keys, each mapped to its own value |
| SwiftFetch.DictionaryKeepsEveryPair | Sources/SwiftFetch/SwiftFetch.swift:23 | the dictionary has one entry per pair |
| SwiftFetch.FlattenHeaders | Sources/SwiftFetch/SwiftFetch.swift:23 | the request's header map sends each header's name to its value, and has no other keys |
| SwiftFetch.FlattenedHeadersCount | Sources/SwiftFetch/SwiftFetch.swift:23 | no header is lost in flattening |
| SwiftFetch.RepeatedStandardCaseTraps | Sources/SwiftFetch/SwiftFetch.swift:23 | two headers of the same non-custom case can never be flattened |
| SwiftFetch.RepeatedCustomNameTraps | Sources/SwiftFetch/SwiftFetch.swift:23 | `[("A","1"), ("A","2")]` traps instead of keeping the last value |
| SwiftFetch.StandardHeadersFlattenIffCasesDistinct | Sources/SwiftFetch/SwiftFetch.swift:23 | non-custom headers flatten exactly when no case repeats |
| SwiftFetch.RequestFor | Sources/SwiftFetch/SwiftFetch.swift:23-25 | the request has the url, the given body, a 60-second timeout, a method string that parses back to the method, and the flattened headers |
| SwiftFetch.RetryFromMeetsContract | Sources/SwiftFetch/SwiftFetch.swift:31-49 | the retry specification makes 1 to 3 attempts, delivers the last one's Response, all earlier ones were not ok, and it stopped on ok or after 3 |
| SwiftFetch.RetryContractIsUnique | Sources/SwiftFetch/SwiftFetch.swift:31-49 | that contract determines both the Response and the attempt count |
| SwiftFetch.AttemptsCount | Sources/SwiftFetch/SwiftFetch.swift:31-49 | attempts = index of the first ok attempt + 1, or 3 when none of the three is ok |
| SwiftFetch.LaterOutcomesAreIgnored | Sources/SwiftFetch/SwiftFetch.swift:44-45 | outcomes beyond the attempts made do not change what is delivered |
| SwiftFetch.Attempts | Sources/SwiftFetch/SwiftFetch.swift:29-49 | the loop meets the retry contract and equals the retry specification |
| SwiftFetch.Fetch | Sources/SwiftFetch/SwiftFetch.swift:17-51 | offline: status -3 with `NoNetworkConnectionError`, no attempt, no request; online: the specified request and the retry contract |
| SwiftFetch.FetchSync | Sources/SwiftFetch/SwiftFetch.swift:72-81 | returns exactly the Response the handler received |
| SwiftFetch.FetchFromString | Sources/SwiftFetch/SwiftFetch.swift:60-62 | with a string that parses as a URL, behaves as `Fetch` on the parsed URL |
| SwiftFetch.FetchSyncFromString | Sources/SwiftFetch/SwiftFetch.swift:90-92 | with a string that parses as a URL, returns what the handler received for the parsed URL |
| SwiftFetch.FirstAttemptOk | Sources/SwiftFetch/SwiftFetch.swift:44-45 | a 200 on the first attempt is delivered after one attempt |
| SwiftFetch.ThirdAttemptOk | Sources/SwiftFetch/SwiftFetch.swift:31-49 | 500, 500, 200 gives status 200 after three attempts |
| SwiftFetch.EveryAttemptFails | Sources/SwiftFetch/SwiftFetch.swift:31-49 | 500 every time gives the third 500 after exactly three attempts |
| SwiftFetch.ErrorThenNoContent | Sources/SwiftFetch/SwiftFetch.swift:33-45 | a transport error is retried and a following 204 is delivered after two attempts |

## Left out

- URLSession's `dataTask`, `DispatchQueue.global().async` and `DispatchSemaphore` (SwiftFetch.swift:27-43, 73-79) are concurrency and networking. Attempts are sequential calls of `transport`, and the handler's single call is the value `Fetch` returns.
- `isConnectedToNetwork()` is reachability I/O whose code is not part of this model. It is the input `connected`.
- `URL(string:)!` in the String overloads is the parameter `parse` together with a precondition that it succeeds. URLs are plain strings.
- The `res as! HTTPURLResponse` cast is built into `AttemptOutcome`: a completion always carries an `HTTPURLResponse`. A callback with neither an error nor a response, which would trap, cannot be expressed.
- `cookies` (Response.swift:32-36) reads the process-wide `HTTPCookieStorage` and is not modelled.
- `String(data:encoding:)` and `JSONDecoder().decode` are the uninterpreted function parameters `decode` of `Text` and `Json`. Only `.utf8` among the string encodings is named.
- The bridging cast `allHeaderFields as? [String: String]` is the optional field `allHeaderFields` of `HTTPURLResponse`.
- `autoreleasepool` in `data` manages memory and has no effect on the value.
- Sources/SwiftFetch/Extensions/URLRequest.swift is not part of this model. `URLRequest.setValue`'s case-insensitive field handling belongs to Foundation, so the request keeps the flattened map as it is.
- SwiftFetch.UniqueKeysDictionary: key equality is equality of Unicode scalar sequences, which is finer than Swift's `String ==` (canonical equivalence). Non-ASCII names that are canonically equivalent but spelled differently, such as "é" and "e" followed by U+0301, satisfy `DistinctNames` and flatten in the model, while `Dictionary(uniqueKeysWithValues:)` traps on them. `Fetch`'s precondition is therefore weaker than the source's trap condition for such names. For ASCII names, including all twelve standard ones, the two notions agree.
- Swift's `Error` existential is the datatype `Error`. Transport errors are reduced to a description string.
- `ContentTypes.TypeString` is split into `FixedTypeString` (the 32 literals) and `FamilyTypeString` (the five prefix arms). The values are the same as the single `switch` in the source.
