/**
 Content codings for `Accept-Encoding` and `Content-Encoding`
 (Sources/SwiftFetch/HTTPContentEncoding.swift): the codings of section 8.4.1
 of RFC 9110, `*` and `identity` of section 12.5.3, and a verbatim custom arm.
 */
module ContentEncodings {

  import opened HttpGrammar

  datatype HTTPContentEncoding = Gzip | Deflate | Identity | Br | Any | Custom(coding: string)

  /** `typeString`: the coding as written in the header value. */
  function TypeString(e: HTTPContentEncoding): string {
    match e
    case Gzip => "gzip"
    case Deflate => "deflate"
    case Identity => "identity"
    case Br => "br"
    case Any => "*"
    case Custom(coding) => coding
  }

  /** The named codings are their own case names as lower-case tokens; `.any` is `*`. */
  lemma FixedCodingNames()
    ensures TypeString(Gzip) == "gzip" && TypeString(Deflate) == "deflate"
    ensures TypeString(Identity) == "identity" && TypeString(Br) == "br"
    ensures TypeString(Any) == "*"
  {
  }

  lemma NamedCodingsAreLowerCase(e: HTTPContentEncoding)
    requires e.Gzip? || e.Deflate? || e.Identity? || e.Br?
    ensures |TypeString(e)| > 0 && forall c :: c in TypeString(e) ==> IsLowerAsciiLetter(c)
  {
  }

  /** The custom arm passes a whole list with weights through unchanged. */
  lemma CustomIsVerbatim(s: string)
    ensures TypeString(Custom(s)) == s
    ensures TypeString(Custom("deflate, gzip;q=1.0, *;q=0.5")) == "deflate, gzip;q=1.0, *;q=0.5"
  {
  }

  /** The five fixed variants give pairwise distinct tokens (`*` is a `tchar`). */
  lemma FixedCodingsAreDistinctTokens(a: HTTPContentEncoding, b: HTTPContentEncoding)
    requires !a.Custom? && !b.Custom?
    ensures IsToken(TypeString(a))
    ensures TypeString(a) == TypeString(b) <==> a == b
  {
  }

  /** Across arms the mapping is not injective; only the custom arm can collide. */
  lemma CollisionsNeedTheCustomArm(a: HTTPContentEncoding, b: HTTPContentEncoding)
    ensures TypeString(a) == TypeString(b) && a != b ==> a.Custom? || b.Custom?
  {
  }

  lemma CustomGzipCollides()
    ensures Custom("gzip") != Gzip && TypeString(Custom("gzip")) == TypeString(Gzip)
  {
  }
}
