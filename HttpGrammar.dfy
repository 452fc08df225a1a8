/**
 Character-level vocabulary shared by the wire-string tables: the `token`
 production of section 5.6.2 of RFC 9110 (method names, header field names,
 authentication schemes and content codings are tokens) and ASCII letter case.
 */
module HttpGrammar {

  /** `tchar` of section 5.6.2 of RFC 9110. */
  predicate IsTChar(c: char) {
    || 'a' <= c <= 'z'
    || 'A' <= c <= 'Z'
    || '0' <= c <= '9'
    || c in "!#$%&'*+-.^_`|~"
  }

  /** `token = 1*tchar`. */
  predicate IsToken(s: string) {
    |s| > 0 && forall c :: c in s ==> IsTChar(c)
  }

  predicate IsUpperAsciiLetter(c: char) {
    'A' <= c <= 'Z'
  }

  predicate IsLowerAsciiLetter(c: char) {
    'a' <= c <= 'z'
  }

  /** Maps an ASCII lower-case letter to its upper-case form; every other character is kept. */
  function UpperAsciiChar(c: char): (u: char)
    ensures IsLowerAsciiLetter(c) ==> IsUpperAsciiLetter(u)
    ensures !IsLowerAsciiLetter(c) ==> u == c
  {
    if IsLowerAsciiLetter(c) then (c as int - 'a' as int + 'A' as int) as char else c
  }

  /** The ASCII upper-case form of a string, character by character. */
  function UpperAscii(s: string): (u: string)
    ensures |u| == |s|
    ensures forall i :: 0 <= i < |s| ==> u[i] == UpperAsciiChar(s[i])
  {
    seq(|s|, i requires 0 <= i < |s| => UpperAsciiChar(s[i]))
  }

  /**
   The length, first and last character of a non-empty string: a cheap key that
   already tells apart the names in each of the fixed tables (a proof device for
   their distinctness).
   */
  function Fingerprint(s: string): (int, char, char)
    requires |s| > 0
  {
    (|s|, s[0], s[|s| - 1])
  }
}
