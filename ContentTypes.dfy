/**
 Media types for `Accept` and `Content-Type` (Sources/SwiftFetch/HTTPContentType.swift):
 32 fixed `type/subtype` strings, five family arms that put their payload after a
 fixed top-level type, and a verbatim custom arm.
 */
module ContentTypes {

  import opened Wrappers
  import opened HttpGrammar

  datatype HTTPContentType =
    | Aac
    | Bin
    | Bmp | Gif | Jpg | Png | Tif | Webp
    | Bz | Bz2 | Gz | Zip
    | Css | Html | Javascript | Xhtml
    | Csv | Json | Plain | Xml
    | Ico
    | Mp3 | Oga | Opus | Weba
    | Ogv | Ts | Webm
    | Pdf
    | Ttf | Woff | Woff2
    | Application(subtype: string)
    | Audio(subtype: string)
    | Image(subtype: string)
    | Text(subtype: string)
    | Video(subtype: string)
    | Custom(mediaType: string)

  /**
   `typeString`: the media type as written in the header value. The switch's
   fixed arms are `FixedTypeString`, its family arms `FamilyTypeString`.
   */
  function TypeString(t: HTTPContentType): string {
    match t
    case Application(_) | Audio(_) | Image(_) | Text(_) | Video(_) => FamilyTypeString(t)
    case Custom(s) => s
    case _ => FixedTypeString(t)
  }

  /** The family arms of `typeString`: a fixed top-level type, '/', then the payload. */
  function FamilyTypeString(t: HTTPContentType): string
    requires IsFamilyArm(t)
  {
    match t
    case Application(sub) => "application/" + sub
    case Audio(sub) => "audio/" + sub
    case Image(sub) => "image/" + sub
    case Text(sub) => "text/" + sub
    case Video(sub) => "video/" + sub
  }

  /** The fixed arms of `typeString`, in the order the switch lists them. */
  function FixedTypeString(t: HTTPContentType): string
    requires IsFixed(t)
  {
    match t
    case Aac => "audio/aac"
    case Bin => "application/octet-stream"
    case Bmp => "image/bmp"
    case Bz => "application/x-bzip"
    case Bz2 => "application/x-bzip2"
    case Css => "text/css"
    case Csv => "text/csv"
    case Gz => "application/gzip"
    case Gif => "image/gif"
    case Html => "text/html"
    case Ico => "image/vnd.microsoft.icon"
    case Jpg => "image/jpeg"
    case Javascript => "text/javascript"
    case Json => "application/json"
    case Mp3 => "audio/mpeg"
    case Oga => "audio/ogg"
    case Ogv => "video/ogg"
    case Opus => "audio/opus"
    case Png => "image/png"
    case Pdf => "application/pdf"
    case Tif => "image/tiff"
    case Ts => "video/mp2t"
    case Ttf => "font/ttf"
    case Plain => "text/plain"
    case Weba => "audio/webm"
    case Webm => "video/webm"
    case Webp => "image/webp"
    case Woff => "font/woff"
    case Woff2 => "font/woff2"
    case Xhtml => "application/xhtml+xml"
    case Xml => "application/xml"
    case Zip => "application/zip"
  }

  predicate IsFamilyArm(t: HTTPContentType) {
    t.Application? || t.Audio? || t.Image? || t.Text? || t.Video?
  }

  /** One of the 32 variants without a payload. */
  predicate IsFixed(t: HTTPContentType) {
    !IsFamilyArm(t) && !t.Custom?
  }

  /** The top-level type a family arm puts in front of its payload. */
  function Family(t: HTTPContentType): string
    requires IsFamilyArm(t)
  {
    match t
    case Application(_) => "application"
    case Audio(_) => "audio"
    case Image(_) => "image"
    case Text(_) => "text"
    case Video(_) => "video"
  }

  /** Top-level media types the fixed variants use. */
  const TopLevelTypes: set<string> := {"application", "audio", "image", "text", "video", "font"}

  /** `s` is `top "/" sub` with a known top-level type and a non-empty, slash-free subtype. */
  predicate IsTopSub(s: string, top: string, sub: string) {
    && top in TopLevelTypes
    && |sub| > 0
    && '/' !in sub
    && s == top + "/" + sub
  }

  /** The media type each fixed variant stands for, as (top-level type, subtype). */
  function FixedMediaType(t: HTTPContentType): (string, string)
    requires IsFixed(t)
  {
    match t
    case Aac => ("audio", "aac")
    case Bin => ("application", "octet-stream")
    case Bmp => ("image", "bmp")
    case Gif => ("image", "gif")
    case Jpg => ("image", "jpeg")
    case Png => ("image", "png")
    case Tif => ("image", "tiff")
    case Webp => ("image", "webp")
    case Bz => ("application", "x-bzip")
    case Bz2 => ("application", "x-bzip2")
    case Gz => ("application", "gzip")
    case Zip => ("application", "zip")
    case Css => ("text", "css")
    case Html => ("text", "html")
    case Javascript => ("text", "javascript")
    case Xhtml => ("application", "xhtml+xml")
    case Csv => ("text", "csv")
    case Json => ("application", "json")
    case Plain => ("text", "plain")
    case Xml => ("application", "xml")
    case Ico => ("image", "vnd.microsoft.icon")
    case Mp3 => ("audio", "mpeg")
    case Oga => ("audio", "ogg")
    case Opus => ("audio", "opus")
    case Weba => ("audio", "webm")
    case Ogv => ("video", "ogg")
    case Ts => ("video", "mp2t")
    case Webm => ("video", "webm")
    case Pdf => ("application", "pdf")
    case Ttf => ("font", "ttf")
    case Woff => ("font", "woff")
    case Woff2 => ("font", "woff2")
  }

  /** Left inverse of `Fingerprint(TypeString(_))` on the fixed variants, by length first. */
  ghost function FixedFromFingerprint(k: (int, char, char)): Option<HTTPContentType> {
    match k.0
    case 8 =>
      if (k.1, k.2) == ('t', 's') then Some(Css)
      else if (k.1, k.2) == ('t', 'v') then Some(Csv)
      else if (k.1, k.2) == ('f', 'f') then Some(Ttf)
      else None
    case 9 =>
      if (k.1, k.2) == ('a', 'c') then Some(Aac)
      else if (k.1, k.2) == ('i', 'p') then Some(Bmp)
      else if (k.1, k.2) == ('i', 'f') then Some(Gif)
      else if (k.1, k.2) == ('i', 'g') then Some(Png)
      else if (k.1, k.2) == ('t', 'l') then Some(Html)
      else if (k.1, k.2) == ('a', 'g') then Some(Oga)
      else if (k.1, k.2) == ('v', 'g') then Some(Ogv)
      else if (k.1, k.2) == ('f', 'f') then Some(Woff)
      else None
    case 10 =>
      if (k.1, k.2) == ('i', 'g') then Some(Jpg)
      else if (k.1, k.2) == ('i', 'f') then Some(Tif)
      else if (k.1, k.2) == ('i', 'p') then Some(Webp)
      else if (k.1, k.2) == ('t', 'n') then Some(Plain)
      else if (k.1, k.2) == ('a', 'g') then Some(Mp3)
      else if (k.1, k.2) == ('a', 's') then Some(Opus)
      else if (k.1, k.2) == ('a', 'm') then Some(Weba)
      else if (k.1, k.2) == ('v', 't') then Some(Ts)
      else if (k.1, k.2) == ('v', 'm') then Some(Webm)
      else if (k.1, k.2) == ('f', '2') then Some(Woff2)
      else None
    case 15 =>
      if (k.1, k.2) == ('a', 'p') then Some(Zip)
      else if (k.1, k.2) == ('t', 't') then Some(Javascript)
      else if (k.1, k.2) == ('a', 'l') then Some(Xml)
      else if (k.1, k.2) == ('a', 'f') then Some(Pdf)
      else None
    case 16 =>
      if (k.1, k.2) == ('a', 'p') then Some(Gz)
      else if (k.1, k.2) == ('a', 'n') then Some(Json)
      else None
    case 18 =>
      if (k.1, k.2) == ('a', 'p') then Some(Bz)
      else None
    case 19 =>
      if (k.1, k.2) == ('a', '2') then Some(Bz2)
      else None
    case 21 =>
      if (k.1, k.2) == ('a', 'l') then Some(Xhtml)
      else None
    case 24 =>
      if (k.1, k.2) == ('a', 'm') then Some(Bin)
      else if (k.1, k.2) == ('i', 'n') then Some(Ico)
      else None
    case _ => None
  }

  /** What is proved of each fixed variant's string, one variant at a time. */
  ghost predicate FixedStringFacts(t: HTTPContentType)
    requires IsFixed(t)
  {
    && IsTopSub(TypeString(t), FixedMediaType(t).0, FixedMediaType(t).1)
    && FixedFromFingerprint(Fingerprint(TypeString(t))) == Some(t)
  }

  // The facts are checked one variant at a time: every string literal in a proof
  // obligation makes the solver's work on all the others dearer.
  lemma AacFacts() ensures FixedStringFacts(Aac) { }
  lemma BinFacts() ensures FixedStringFacts(Bin) { }
  lemma BmpFacts() ensures FixedStringFacts(Bmp) { }
  lemma GifFacts() ensures FixedStringFacts(Gif) { }
  lemma JpgFacts() ensures FixedStringFacts(Jpg) { }
  lemma PngFacts() ensures FixedStringFacts(Png) { }
  lemma TifFacts() ensures FixedStringFacts(Tif) { }
  lemma WebpFacts() ensures FixedStringFacts(Webp) { }
  lemma BzFacts() ensures FixedStringFacts(Bz) { }
  lemma Bz2Facts() ensures FixedStringFacts(Bz2) { }
  lemma GzFacts() ensures FixedStringFacts(Gz) { }
  lemma ZipFacts() ensures FixedStringFacts(Zip) { }
  lemma CssFacts() ensures FixedStringFacts(Css) { }
  lemma HtmlFacts() ensures FixedStringFacts(Html) { }
  lemma JavascriptFacts() ensures FixedStringFacts(Javascript) { }
  lemma XhtmlFacts() ensures FixedStringFacts(Xhtml) { }
  lemma CsvFacts() ensures FixedStringFacts(Csv) { }
  lemma JsonFacts() ensures FixedStringFacts(Json) { }
  lemma PlainFacts() ensures FixedStringFacts(Plain) { }
  lemma XmlFacts() ensures FixedStringFacts(Xml) { }
  lemma IcoFacts() ensures FixedStringFacts(Ico) { }
  lemma Mp3Facts() ensures FixedStringFacts(Mp3) { }
  lemma OgaFacts() ensures FixedStringFacts(Oga) { }
  lemma OpusFacts() ensures FixedStringFacts(Opus) { }
  lemma WebaFacts() ensures FixedStringFacts(Weba) { }
  lemma OgvFacts() ensures FixedStringFacts(Ogv) { }
  lemma TsFacts() ensures FixedStringFacts(Ts) { }
  lemma WebmFacts() ensures FixedStringFacts(Webm) { }
  lemma PdfFacts() ensures FixedStringFacts(Pdf) { }
  lemma TtfFacts() ensures FixedStringFacts(Ttf) { }
  lemma WoffFacts() ensures FixedStringFacts(Woff) { }
  lemma Woff2Facts() ensures FixedStringFacts(Woff2) { }

  lemma FixedStringFactsHold(t: HTTPContentType)
    requires IsFixed(t)
    ensures FixedStringFacts(t)
  {
    match t
    case Aac => AacFacts();
    case Bin => BinFacts();
    case Bmp => BmpFacts();
    case Gif => GifFacts();
    case Jpg => JpgFacts();
    case Png => PngFacts();
    case Tif => TifFacts();
    case Webp => WebpFacts();
    case Bz => BzFacts();
    case Bz2 => Bz2Facts();
    case Gz => GzFacts();
    case Zip => ZipFacts();
    case Css => CssFacts();
    case Html => HtmlFacts();
    case Javascript => JavascriptFacts();
    case Xhtml => XhtmlFacts();
    case Csv => CsvFacts();
    case Json => JsonFacts();
    case Plain => PlainFacts();
    case Xml => XmlFacts();
    case Ico => IcoFacts();
    case Mp3 => Mp3Facts();
    case Oga => OgaFacts();
    case Opus => OpusFacts();
    case Weba => WebaFacts();
    case Ogv => OgvFacts();
    case Ts => TsFacts();
    case Webm => WebmFacts();
    case Pdf => PdfFacts();
    case Ttf => TtfFacts();
    case Woff => WoffFacts();
    case Woff2 => Woff2Facts();
  }

  /**
   Every fixed variant's string is `top/sub`: a top-level type from
   `TopLevelTypes`, exactly one '/', and a non-empty subtype.
   */
  lemma FixedTypeStringShape(t: HTTPContentType)
    requires IsFixed(t)
    ensures IsTopSub(TypeString(t), FixedMediaType(t).0, FixedMediaType(t).1)
  {
    FixedStringFactsHold(t);
  }

  /** Top-level types are non-empty and contain no '/', so a media type has exactly one. */
  lemma TopLevelTypesHaveNoSlash(top: string)
    requires top in TopLevelTypes
    ensures |top| > 0 && '/' !in top
  {
  }

  /** Each fixed variant maps to its listed literal, for example: */
  lemma FixedTypeStringExamples()
    ensures TypeString(Json) == "application/json"
    ensures TypeString(Ico) == "image/vnd.microsoft.icon"
  {
  }

  /** The 32 fixed variants map to pairwise distinct strings. */
  lemma FixedTypeStringsDistinct(a: HTTPContentType, b: HTTPContentType)
    requires IsFixed(a) && IsFixed(b)
    ensures TypeString(a) == TypeString(b) <==> a == b
  {
    FixedStringFactsHold(a);
    FixedStringFactsHold(b);
  }

  /** A family arm puts its top-level type and a '/' in front of its payload. */
  lemma FamilyArmPrefix(t: HTTPContentType)
    requires IsFamilyArm(t)
    ensures TypeString(t) == Family(t) + "/" + t.subtype
    ensures '/' !in Family(t)
  {
  }

  /** The custom arm passes its payload through unchanged. */
  lemma CustomIsVerbatim(s: string)
    ensures TypeString(Custom(s)) == s
  {
  }

  /** The characters of `p/x`: those of `p`, then the '/' at index `|p|`. */
  lemma SlashJoinAt(p: string, x: string, i: int)
    ensures 0 <= i < |p| ==> (p + "/" + x)[i] == p[i]
    ensures (p + "/" + x)[|p|] == '/'
  {
  }

  /** A string `p/x` whose `p` has no '/' determines both `p` and `x`. */
  lemma SlashSplitUnique(p: string, x: string, q: string, y: string)
    requires '/' !in p && '/' !in q
    requires p + "/" + x == q + "/" + y
    ensures p == q && x == y
  {
    var s := p + "/" + x;
    if |p| < |q| {
      SlashJoinAt(p, x, 0);
      SlashJoinAt(q, y, |p|);
      assert false;
    } else if |q| < |p| {
      SlashJoinAt(q, y, 0);
      SlashJoinAt(p, x, |q|);
      assert false;
    }
    assert p == s[..|p|] == q;
    assert x == s[|p| + 1..] == y;
  }

  /**
   The family arms together are injective: two of them give the same string
   exactly when they are the same arm with the same payload.
   */
  lemma FamilyArmsInjective(a: HTTPContentType, b: HTTPContentType)
    requires IsFamilyArm(a) && IsFamilyArm(b)
    ensures TypeString(a) == TypeString(b) <==> a == b
  {
    if TypeString(a) == TypeString(b) {
      FamilyArmPrefix(a);
      FamilyArmPrefix(b);
      SlashSplitUnique(Family(a), a.subtype, Family(b), b.subtype);
    }
  }

  /** The arm that spells `top/sub`, for the top-level types that have one. */
  function FamilyArmFor(top: string, sub: string): (u: HTTPContentType)
    requires top in TopLevelTypes - {"font"}
    ensures IsFamilyArm(u) && Family(u) == top && u.subtype == sub
  {
    if top == "application" then Application(sub)
    else if top == "audio" then Audio(sub)
    else if top == "image" then Image(sub)
    else if top == "text" then Text(sub)
    else Video(sub)
  }

  /** The family arm for `top` spells every `top/sub` with that top-level type. */
  lemma FamilyArmSpells(s: string, top: string, sub: string)
    requires IsTopSub(s, top, sub) && top != "font"
    ensures TypeString(FamilyArmFor(top, sub)) == s
  {
  }

  /**
   Fixed variants and family arms coincide: every fixed variant outside `font`
   is spelled again by the family arm of its top-level type.
   */
  lemma FamilyArmSpellsFixedVariant(t: HTTPContentType)
    requires IsFixed(t) && FixedMediaType(t).0 != "font"
    ensures var u := FamilyArmFor(FixedMediaType(t).0, FixedMediaType(t).1);
            u != t && TypeString(u) == TypeString(t)
  {
    var (top, sub) := FixedMediaType(t);
    FixedTypeStringShape(t);
    FamilyArmSpells(TypeString(t), top, sub);
  }

  /** The instance named in the source: `.json` and `.application("json")`. */
  lemma JsonCollidesWithApplicationJson()
    ensures Json != Application("json") && TypeString(Json) == TypeString(Application("json"))
  {
  }

  /** A fixed variant and a family arm collide only on the fixed variant's own top/sub. */
  lemma FixedFamilyCollision(a: HTTPContentType, b: HTTPContentType)
    requires IsFixed(a) && IsFamilyArm(b) && TypeString(a) == TypeString(b)
    ensures FixedMediaType(a) == (Family(b), b.subtype)
  {
    var (top, sub) := FixedMediaType(a);
    FixedTypeStringShape(a);
    TopLevelTypesHaveNoSlash(top);
    FamilyArmPrefix(b);
    SlashSplitUnique(top, sub, Family(b), b.subtype);
  }

  /**
   All the collisions there are: two different values give the same string only
   when one is the custom arm, or one is a fixed variant and the other the family
   arm of the same top-level type with the fixed variant's subtype as payload.
   */
  lemma CollisionsCharacterized(a: HTTPContentType, b: HTTPContentType)
    requires a != b && TypeString(a) == TypeString(b)
    ensures || a.Custom? || b.Custom?
            || (IsFixed(a) && IsFamilyArm(b) && FixedMediaType(a) == (Family(b), b.subtype))
            || (IsFixed(b) && IsFamilyArm(a) && FixedMediaType(b) == (Family(a), a.subtype))
  {
    if !a.Custom? && !b.Custom? {
      if IsFixed(a) && IsFixed(b) {
        FixedTypeStringsDistinct(a, b);
      } else if IsFamilyArm(a) && IsFamilyArm(b) {
        FamilyArmsInjective(a, b);
      } else if IsFixed(a) {
        FixedFamilyCollision(a, b);
      } else {
        FixedFamilyCollision(b, a);
      }
    }
  }
}
