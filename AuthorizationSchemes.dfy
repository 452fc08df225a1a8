/**
 Schemes for the `Authorization` header (Sources/SwiftFetch/HTTPAuthorization.swift):
 Basic (RFC 7617), Bearer (RFC 6750), Digest (RFC 7616) and a verbatim custom arm.
 */
module AuthorizationSchemes {

  import opened HttpGrammar

  datatype HTTPAuthorization = Basic | Bearer | Digest | Custom(scheme: string)

  /** `typeString`: the scheme name written before the credentials. */
  function TypeString(a: HTTPAuthorization): string {
    match a
    case Basic => "Basic"
    case Bearer => "Bearer"
    case Digest => "Digest"
    case Custom(scheme) => scheme
  }

  /** The three registered schemes and their names. */
  lemma FixedSchemeNames()
    ensures TypeString(Basic) == "Basic"
    ensures TypeString(Bearer) == "Bearer"
    ensures TypeString(Digest) == "Digest"
  {
  }

  /** The custom arm passes its payload through unchanged, the empty string included. */
  lemma CustomIsVerbatim(s: string)
    ensures TypeString(Custom(s)) == s
    ensures TypeString(Custom("")) == ""
  {
  }

  /**
   The fixed scheme names are tokens (so non-empty and free of spaces, which
   keeps `scheme SP credentials` unambiguous) and pairwise distinct.
   */
  lemma FixedSchemesAreDistinctTokens(a: HTTPAuthorization, b: HTTPAuthorization)
    requires !a.Custom? && !b.Custom?
    ensures IsToken(TypeString(a)) && ' ' !in TypeString(a)
    ensures TypeString(a) == TypeString(b) <==> a == b
  {
  }

  /**
   The mapping is not injective: the custom arm can spell any fixed scheme,
   so two different values share a wire string exactly when one of them is custom.
   */
  lemma CollisionsNeedTheCustomArm(a: HTTPAuthorization, b: HTTPAuthorization)
    ensures TypeString(a) == TypeString(b) && a != b ==> a.Custom? || b.Custom?
    ensures !a.Custom? ==> Custom(TypeString(a)) != a && TypeString(Custom(TypeString(a))) == TypeString(a)
  {
  }

  /** The collision named by the source's own cases: `.custom("Bearer")` and `.bearer`. */
  lemma CustomBearerCollides()
    ensures Custom("Bearer") != Bearer && TypeString(Custom("Bearer")) == TypeString(Bearer)
  {
  }
}
