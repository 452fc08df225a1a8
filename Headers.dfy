/**
 Request headers (Sources/SwiftFetch/HTTPHeader.swift): each case pairs a header
 name with a typed or raw value, and `createHeader()` projects it to the
 `(name, value)` strings that go into the request.
 */
module Headers {

  import opened Wrappers
  import opened HttpGrammar
  import Auth = AuthorizationSchemes
  import Enc = ContentEncodings
  import CT = ContentTypes

  /** Swift's `Int64`, the payload of `.contentLength`. */
  newtype Int64 = x: int | -0x8000_0000_0000_0000 <= x < 0x8000_0000_0000_0000

  datatype HTTPHeader =
    | Accept(CT.HTTPContentType)
    | AcceptEncoding(Enc.HTTPContentEncoding)
    | AcceptLanguage(string)
    | AcceptCharset(string)
    | Authorization(Auth.HTTPAuthorization, string)
    | Cookie(string)
    | ContentEncoding(Enc.HTTPContentEncoding)
    | ContentLanguage(string)
    | ContentLength(Int64)
    | ContentType(CT.HTTPContentType)
    | Referer(string)
    | UserAgent(string)
    | Custom(string, string)

  // ---------------------------------------------------------------------------
  // Decimal text of an Int64, as Swift's string interpolation `"\(value)"` writes it

  function DigitChar(d: int): (c: char)
    requires 0 <= d < 10
    ensures '0' <= c <= '9' && c as int - '0' as int == d
  {
    ('0' as int + d) as char
  }

  /** Decimal digits of `n`, most significant first, without leading zeros. */
  function NatToDecimal(n: nat): (s: string)
    ensures |s| > 0 && IsDecimalDigits(s)
    ensures s[0] == '0' ==> n == 0
  {
    if n < 10 then [DigitChar(n)] else NatToDecimal(n / 10) + [DigitChar(n % 10)]
  }

  predicate IsDecimalDigits(s: string) {
    forall i :: 0 <= i < |s| ==> '0' <= s[i] <= '9'
  }

  /** `"\(value)"` for an Int64: a '-' for negative values, then the digits of the magnitude. */
  function Int64Description(n: Int64): string {
    if n < 0 then "-" + NatToDecimal(-(n as int)) else NatToDecimal(n as int)
  }

  /** The value a string of decimal digits denotes. */
  function DecimalValue(s: string): (v: nat)
    requires IsDecimalDigits(s)
  {
    if s == [] then 0
    else
      DecimalValue(s[..|s| - 1]) * 10 + (s[|s| - 1] as int - '0' as int)
  }

  /** Reads back an optionally signed decimal rendering. */
  function ParseInteger(s: string): Option<int> {
    if |s| > 0 && s[0] == '-' && IsDecimalDigits(s[1..]) && |s| > 1 then Some(-(DecimalValue(s[1..]) as int))
    else if |s| > 0 && IsDecimalDigits(s) then Some(DecimalValue(s))
    else None
  }

  lemma {:induction false} NatToDecimalRoundTrip(n: nat)
    ensures DecimalValue(NatToDecimal(n)) == n
  {
    if n >= 10 {
      var s := NatToDecimal(n);
      NatToDecimalRoundTrip(n / 10);
      assert s[..|s| - 1] == NatToDecimal(n / 10);
    }
  }

  /**
   The rendering is a non-empty sign-and-digits string that starts with '-'
   exactly for negative values and reads back as the value itself (so distinct
   lengths never render alike).
   */
  lemma Int64DescriptionRoundTrip(n: Int64)
    ensures var s := Int64Description(n); |s| > 0 && (s[0] == '-' <==> n < 0)
    ensures ParseInteger(Int64Description(n)) == Some(n as int)
  {
    var m := if n < 0 then -(n as int) else n as int;
    NatToDecimalRoundTrip(m);
    var d := NatToDecimal(m);
    if n < 0 {
      assert Int64Description(n)[1..] == d;
    }
  }

  // ---------------------------------------------------------------------------
  // createHeader()

  /** `createHeader()`: the (name, value) pair each header contributes to the request. */
  function CreateHeader(h: HTTPHeader): (string, string) {
    match h
    case Authorization(scheme, value) => ("Authorization", Auth.TypeString(scheme) + " " + value)
    case Accept(value) => ("Accept", CT.TypeString(value))
    case AcceptEncoding(value) => ("Accept-Encoding", Enc.TypeString(value))
    case AcceptLanguage(value) => ("Accept-Language", value)
    case AcceptCharset(value) => ("Accept-Charset", value)
    case Cookie(value) => ("Cookie", value)
    case ContentLength(value) => ("contentLength", Int64Description(value))
    case ContentType(value) => ("Content-Type", CT.TypeString(value))
    case ContentEncoding(value) => ("Content-Encoding", Enc.TypeString(value))
    case ContentLanguage(value) => ("Content-Language", value)
    case Referer(value) => ("Referer", value)
    case UserAgent(value) => ("User-Agent", value)
    case Custom(header, value) => (header, value)
  }

  function Name(h: HTTPHeader): string {
    CreateHeader(h).0
  }

  function Value(h: HTTPHeader): string {
    CreateHeader(h).1
  }

  /** The position of each case in the enum's declaration, identifying the case apart from its payload. */
  function CaseIndex(h: HTTPHeader): nat {
    match h
    case Accept(_) => 0
    case AcceptEncoding(_) => 1
    case AcceptLanguage(_) => 2
    case AcceptCharset(_) => 3
    case Authorization(_, _) => 4
    case Cookie(_) => 5
    case ContentEncoding(_) => 6
    case ContentLanguage(_) => 7
    case ContentLength(_) => 8
    case ContentType(_) => 9
    case Referer(_) => 10
    case UserAgent(_) => 11
    case Custom(_, _) => 12
  }

  /** `.authorization(t, v)` is `t.typeString`, exactly one space, then `v`. */
  lemma AuthorizationHeaderJoins(scheme: Auth.HTTPAuthorization, credentials: string)
    ensures CreateHeader(Authorization(scheme, credentials)) == ("Authorization", Auth.TypeString(scheme) + " " + credentials)
  {
  }

  /**
   Splits a string at its first space: the inverse of joining a space-free
   scheme and the credentials.
   */
  function SplitAtFirstSpace(s: string): (r: Option<(string, string)>)
    ensures r.Some? ==> ' ' !in r.value.0 && s == r.value.0 + " " + r.value.1
    ensures r.None? ==> ' ' !in s
  {
    if s == [] then None
    else if s[0] == ' ' then Some(([], s[1..]))
    else match SplitAtFirstSpace(s[1..])
      case None => None
      case Some((scheme, rest)) => Some(([s[0]] + scheme, rest))
  }

  lemma {:induction false} SplitJoinedScheme(scheme: string, credentials: string)
    requires ' ' !in scheme
    ensures SplitAtFirstSpace(scheme + " " + credentials) == Some((scheme, credentials))
  {
    var joined := scheme + " " + credentials;
    if scheme == [] {
      assert joined[0] == ' ' && joined[1..] == credentials;
    } else {
      assert scheme[0] in scheme;
      assert forall c :: c in scheme[1..] ==> c in scheme;
      assert joined[0] == scheme[0] && joined[1..] == scheme[1..] + " " + credentials;
      SplitJoinedScheme(scheme[1..], credentials);
      assert [scheme[0]] + scheme[1..] == scheme;
    }
  }

  /**
   With one of the registered schemes the value is unambiguous: splitting it at
   its first space gives back the scheme name and the credentials.
   */
  lemma AuthorizationValueSplits(scheme: Auth.HTTPAuthorization, credentials: string)
    requires !scheme.Custom?
    ensures SplitAtFirstSpace(Value(Authorization(scheme, credentials))) == Some((Auth.TypeString(scheme), credentials))
  {
    Auth.FixedSchemesAreDistinctTokens(scheme, scheme);
    SplitJoinedScheme(Auth.TypeString(scheme), credentials);
  }

  /**
   A custom scheme containing a space makes the value ambiguous: it can equal
   the value of a registered scheme with other credentials.
   */
  lemma CustomSchemeWithSpaceIsAmbiguous()
    ensures Value(Authorization(Auth.Custom("Bearer x"), "y")) == Value(Authorization(Auth.Bearer, "x y"))
  {
    Auth.FixedSchemeNames();
  }

  /** The media-type and coding headers take their value from the value tables. */
  lemma TypedValuesComeFromTheTables(t: CT.HTTPContentType, e: Enc.HTTPContentEncoding)
    ensures CreateHeader(Accept(t)) == ("Accept", CT.TypeString(t))
    ensures CreateHeader(ContentType(t)) == ("Content-Type", CT.TypeString(t))
    ensures CreateHeader(AcceptEncoding(e)) == ("Accept-Encoding", Enc.TypeString(e))
    ensures CreateHeader(ContentEncoding(e)) == ("Content-Encoding", Enc.TypeString(e))
  {
  }

  /** The String-carrying headers pass their value through unchanged. */
  lemma StringValuesPassThrough(v: string)
    ensures Value(AcceptLanguage(v)) == v && Value(AcceptCharset(v)) == v
    ensures Value(Cookie(v)) == v && Value(ContentLanguage(v)) == v
    ensures Value(Referer(v)) == v && Value(UserAgent(v)) == v
  {
  }

  /**
   `.contentLength(n)` is named literally "contentLength" (not the registered
   field name "Content-Length") and carries the decimal text of `n`, which reads
   back as `n`.
   */
  lemma ContentLengthHeader(n: Int64)
    ensures Name(ContentLength(n)) == "contentLength" && Name(ContentLength(n)) != "Content-Length"
    ensures ParseInteger(Value(ContentLength(n))) == Some(n as int)
    ensures Value(ContentLength(n))[0] == '-' <==> n < 0
  {
    Int64DescriptionRoundTrip(n);
  }

  /** `.custom(h, v)` is exactly `(h, v)`: the name may even be empty. */
  lemma CustomHeaderIsVerbatim(name: string, value: string)
    ensures CreateHeader(Custom(name, value)) == (name, value)
    ensures Name(Custom("", value)) == ""
  {
  }

  /** For the other twelve cases the name depends on the case alone, never on the payload. */
  lemma NameDependsOnlyOnCase(a: HTTPHeader, b: HTTPHeader)
    requires !a.Custom? && CaseIndex(a) == CaseIndex(b)
    ensures Name(a) == Name(b)
  {
  }

  /** Left inverse of `CaseIndex` on the fingerprints of the twelve non-custom names. */
  ghost function CaseFromFingerprint(k: (int, char, char)): Option<nat> {
    match k
    case (6, 'A', 't') => Some(0)
    case (15, 'A', 'g') => Some(1)
    case (15, 'A', 'e') => Some(2)
    case (14, 'A', 't') => Some(3)
    case (13, 'A', 'n') => Some(4)
    case (6, 'C', 'e') => Some(5)
    case (16, 'C', 'g') => Some(6)
    case (16, 'C', 'e') => Some(7)
    case (13, 'c', 'h') => Some(8)
    case (12, 'C', 'e') => Some(9)
    case (7, 'R', 'r') => Some(10)
    case (10, 'U', 't') => Some(11)
    case _ => None
  }

  ghost predicate StandardNameFacts(h: HTTPHeader)
    requires !h.Custom?
  {
    && IsToken(Name(h))
    && CaseFromFingerprint(Fingerprint(Name(h))) == Some(CaseIndex(h))
  }

  // One lemma per case: each looks at a single literal name.
  lemma AcceptNameFacts(t: CT.HTTPContentType) ensures StandardNameFacts(Accept(t)) { }
  lemma AcceptEncodingNameFacts(e: Enc.HTTPContentEncoding) ensures StandardNameFacts(AcceptEncoding(e)) { }
  lemma AcceptLanguageNameFacts(v: string) ensures StandardNameFacts(AcceptLanguage(v)) { }
  lemma AcceptCharsetNameFacts(v: string) ensures StandardNameFacts(AcceptCharset(v)) { }
  lemma AuthorizationNameFacts(a: Auth.HTTPAuthorization, v: string) ensures StandardNameFacts(Authorization(a, v)) { }
  lemma CookieNameFacts(v: string) ensures StandardNameFacts(Cookie(v)) { }
  lemma ContentEncodingNameFacts(e: Enc.HTTPContentEncoding) ensures StandardNameFacts(ContentEncoding(e)) { }
  lemma ContentLanguageNameFacts(v: string) ensures StandardNameFacts(ContentLanguage(v)) { }
  lemma ContentLengthNameFacts(n: Int64) ensures StandardNameFacts(ContentLength(n)) { }
  lemma ContentTypeNameFacts(t: CT.HTTPContentType) ensures StandardNameFacts(ContentType(t)) { }
  lemma RefererNameFacts(v: string) ensures StandardNameFacts(Referer(v)) { }
  lemma UserAgentNameFacts(v: string) ensures StandardNameFacts(UserAgent(v)) { }

  lemma StandardNameFactsHold(h: HTTPHeader)
    requires !h.Custom?
    ensures StandardNameFacts(h)
  {
    match h
    case Accept(t) => AcceptNameFacts(t);
    case AcceptEncoding(e) => AcceptEncodingNameFacts(e);
    case AcceptLanguage(v) => AcceptLanguageNameFacts(v);
    case AcceptCharset(v) => AcceptCharsetNameFacts(v);
    case Authorization(a, v) => AuthorizationNameFacts(a, v);
    case Cookie(v) => CookieNameFacts(v);
    case ContentEncoding(e) => ContentEncodingNameFacts(e);
    case ContentLanguage(v) => ContentLanguageNameFacts(v);
    case ContentLength(n) => ContentLengthNameFacts(n);
    case ContentType(t) => ContentTypeNameFacts(t);
    case Referer(v) => RefererNameFacts(v);
    case UserAgent(v) => UserAgentNameFacts(v);
  }

  /**
   The twelve non-custom names are pairwise distinct tokens (valid field names,
   section 5.1 of RFC 9110): two such headers share a name exactly when they are
   the same case.
   */
  lemma StandardNamesAreDistinctTokens(a: HTTPHeader, b: HTTPHeader)
    requires !a.Custom? && !b.Custom?
    ensures IsToken(Name(a))
    ensures Name(a) == Name(b) <==> CaseIndex(a) == CaseIndex(b)
  {
    StandardNameFactsHold(a);
    StandardNameFactsHold(b);
    if CaseIndex(a) == CaseIndex(b) {
      NameDependsOnlyOnCase(a, b);
    }
  }
}
