/**
 HTTP request methods (Sources/SwiftFetch/HTTPMethod.swift): a String-raw-valued
 enum, so Swift synthesises both `rawValue` and the failable `init?(rawValue:)`.
 Method names are case-sensitive tokens (section 9.1 of RFC 9110).
 */
module Methods {

  import opened Wrappers
  import opened HttpGrammar

  datatype HTTPMethod = Get | Post | Put | Patch | Delete | Options | Head

  /** The raw value of each case: the method token sent on the wire. */
  function RawValue(m: HTTPMethod): string {
    match m
    case Get => "GET"
    case Post => "POST"
    case Put => "PUT"
    case Patch => "PATCH"
    case Delete => "DELETE"
    case Options => "OPTIONS"
    case Head => "HEAD"
  }

  /** The name of each case as written in the Swift enum (`case get`, ...). */
  function CaseName(m: HTTPMethod): string {
    match m
    case Get => "get"
    case Post => "post"
    case Put => "put"
    case Patch => "patch"
    case Delete => "delete"
    case Options => "options"
    case Head => "head"
  }

  /**
   The synthesised `init?(rawValue:)`: exact, case-sensitive matching of the raw
   values. It yields a method exactly when `s` is that method's raw value.
   */
  function FromRawValue(s: string): (r: Option<HTTPMethod>)
    ensures r.Some? ==> RawValue(r.value) == s
    ensures r.None? ==> forall m :: RawValue(m) != s
  {
    if s == "GET" then Some(Get)
    else if s == "POST" then Some(Post)
    else if s == "PUT" then Some(Put)
    else if s == "PATCH" then Some(Patch)
    else if s == "DELETE" then Some(Delete)
    else if s == "OPTIONS" then Some(Options)
    else if s == "HEAD" then Some(Head)
    else None
  }

  /** Each raw value is the upper-cased case name. */
  lemma RawValueIsUpperCaseName(m: HTTPMethod)
    ensures RawValue(m) == UpperAscii(CaseName(m))
  {
  }

  /** The seven raw values are pairwise distinct. */
  lemma RawValueInjective(a: HTTPMethod, b: HTTPMethod)
    ensures RawValue(a) == RawValue(b) <==> a == b
  {
  }

  /** Parsing a raw value gives back the method. */
  lemma RawValueRoundTrip(m: HTTPMethod)
    ensures FromRawValue(RawValue(m)) == Some(m)
  {
    RawValueInjective(FromRawValue(RawValue(m)).value, m);
  }

  /** Parsing is case-sensitive: the lower-case spelling of a method is refused. */
  lemma ParsingIsCaseSensitive(m: HTTPMethod)
    ensures FromRawValue(CaseName(m)) == None
  {
  }

  /** Every raw value is a non-empty run of upper-case ASCII letters, hence a token. */
  lemma RawValueIsUpperCaseToken(m: HTTPMethod)
    ensures |RawValue(m)| > 0
    ensures forall c :: c in RawValue(m) ==> IsUpperAsciiLetter(c)
    ensures IsToken(RawValue(m))
  {
  }
}
