/** Output-format resolution in `imageTransform` (src/img.resource.ts). */
module FormatNegotiation {
  import opened Wrappers
  import opened StringUtil

  /** The sentinel asking for content negotiation. */
  const Auto := "auto"
  const AvifMediaType := "image/avif"
  const WebpMediaType := "image/webp"

  /** A JavaScript string is falsy exactly when it is absent or empty. */
  predicate Falsy(format: Option<string>) {
    format.None? || format.value == ""
  }

  /** The `auto` branch: `avif` if the Accept header mentions it, else `webp`
      if it mentions that, else the empty string. */
  function Negotiate(accept: string): (r: string)
    ensures ContainsSubstring(accept, AvifMediaType) ==> r == "avif"
    ensures !ContainsSubstring(accept, AvifMediaType) && ContainsSubstring(accept, WebpMediaType) ==> r == "webp"
    ensures !ContainsSubstring(accept, AvifMediaType) && !ContainsSubstring(accept, WebpMediaType) ==> r == ""
  {
    if Includes(accept, AvifMediaType) then "avif"
    else if Includes(accept, WebpMediaType) then "webp"
    else ""
  }

  /** The format handed to the encoder: the `auto` branch followed by
      `format ||= _substringAfterLast(sourceImageUrl, '.')`. */
  function ResolveFormat(format: Option<string>, accept: string, url: string): (r: string)
    ensures format == Some(Auto) && ContainsSubstring(accept, AvifMediaType) ==> r == "avif"
    ensures (format == Some(Auto) && !ContainsSubstring(accept, AvifMediaType)
             && ContainsSubstring(accept, WebpMediaType)) ==> r == "webp"
    ensures format.Some? && format.value != "" && format.value != Auto ==> r == format.value
    ensures Falsy(format) ==> r == SubstringAfterLast(url, '.')
    ensures (format == Some(Auto) && !ContainsSubstring(accept, AvifMediaType)
             && !ContainsSubstring(accept, WebpMediaType)) ==> r == SubstringAfterLast(url, '.')
  {
    var negotiated := if format == Some(Auto) then Some(Negotiate(accept)) else format;
    if Falsy(negotiated) then SubstringAfterLast(url, '.') else negotiated.value
  }

  /** Every resolved format is `avif`, `webp`, the requested value, or the URL
      suffix; `auto` itself is only ever returned when the URL suffix is `auto`. */
  lemma ResolveFormatRange(format: Option<string>, accept: string, url: string)
    ensures var r := ResolveFormat(format, accept, url);
      || r == SubstringAfterLast(url, '.')
      || (format == Some(Auto) && (r == "avif" || r == "webp"))
      || (format.Some? && format.value !in {"", Auto} && r == format.value)
  {
  }

  /** A concrete requested format is used verbatim: neither the header nor the
      URL can change it. */
  lemma ExplicitFormatIgnoresContext(format: string, accept1: string, url1: string, accept2: string, url2: string)
    requires format != "" && format != Auto
    ensures ResolveFormat(Some(format), accept1, url1) == ResolveFormat(Some(format), accept2, url2) == format
  {
  }

  /** Without `auto` the Accept header plays no part. */
  lemma HeaderOnlyMattersForAuto(format: Option<string>, accept1: string, accept2: string, url: string)
    requires format != Some(Auto)
    ensures ResolveFormat(format, accept1, url) == ResolveFormat(format, accept2, url)
  {
  }

  /** With no format the URL's extension is used as written, case included. */
  lemma UrlSuffixKeepsCase(accept: string)
    ensures ResolveFormat(None, accept, "http://x/y/pic.JPG") == "JPG"
  {
    SubstringAfterLastOf("http://x/y/pic", "JPG", '.');
    assert "http://x/y/pic" + "." + "JPG" == "http://x/y/pic.JPG";
  }

  /** A header listing both image types yields `avif`: it has priority. */
  lemma AvifHasPriority(url: string)
    ensures ResolveFormat(Some(Auto), "image/avif,image/webp,*/*", url) == "avif"
  {
    assert OccursAt("image/avif,image/webp,*/*", AvifMediaType, 0);
  }

  /** An `auto` request that matches neither type falls back to the URL's
      extension rather than leaving the choice to the engine. */
  lemma UnmatchedAutoUsesUrlSuffix()
    ensures ResolveFormat(Some(Auto), "text/html", "http://x/a.png") == "png"
  {
    assert !Includes("text/html", AvifMediaType);
    assert !Includes("text/html", WebpMediaType);
    SubstringAfterLastOf("http://x/a", "png", '.');
    assert "http://x/a" + "." + "png" == "http://x/a.png";
  }
}
