/**
 * `normalizeReturnUrl`, which the checkout and the portal handlers each
 * declare with the same body: a caller-supplied redirect is kept only when it
 * parses, is http(s), and (when the app's base URL is configured) has the
 * app's origin; otherwise the handler's default is used.
 */
module ReturnUrls {
  import opened Wrappers
  import opened Text

  /** The parts of a WHATWG `URL` the handlers read: `protocol` ("https:"), `origin`, `toString()`. */
  datatype ParsedUrl = ParsedUrl(protocol: string, origin: string, href: string)

  /** `new URL(s)`: `None` where the constructor throws. */
  type UrlParser = string -> Option<ParsedUrl>

  predicate IsWebScheme(u: ParsedUrl) {
    u.protocol == "https:" || u.protocol == "http:"
  }

  /** The candidate would be kept: it parses, is http(s), and matches the configured origin. */
  predicate Acceptable(candidate: string, appBaseUrl: string, parse: UrlParser) {
    && candidate != ""
    && parse(candidate).Some?
    && IsWebScheme(parse(candidate).value)
    && (appBaseUrl != "" ==>
          parse(appBaseUrl).Some? && parse(candidate).value.origin == parse(appBaseUrl).value.origin)
  }

  function NormalizeReturnUrl(value: string, fallback: string, appBaseUrl: string, parse: UrlParser): (r: string)
    ensures Blank(value) ==> r == fallback
    ensures r != fallback ==>
      && Acceptable(Trim(value), appBaseUrl, parse)
      && r == parse(Trim(value)).value.href
  {
    var candidate := Trim(value);
    if candidate == "" then fallback
    else match parse(candidate)
      case None => fallback
      case Some(parsed) =>
        if parsed.protocol != "https:" && parsed.protocol != "http:" then fallback
        else if appBaseUrl != "" && (parse(appBaseUrl).None? || parsed.origin != parse(appBaseUrl).value.origin) then fallback
        else parsed.href
  }

  /** Every rejected candidate gives the fallback: empty, unparsable, another scheme, another origin. */
  lemma RejectedGivesFallback(value: string, fallback: string, appBaseUrl: string, parse: UrlParser)
    requires !Acceptable(Trim(value), appBaseUrl, parse)
    ensures NormalizeReturnUrl(value, fallback, appBaseUrl, parse) == fallback
  {
  }

  /** An acceptable candidate is returned as the URL's serialisation. */
  lemma AcceptedIsKept(value: string, fallback: string, appBaseUrl: string, parse: UrlParser)
    requires Acceptable(Trim(value), appBaseUrl, parse)
    ensures NormalizeReturnUrl(value, fallback, appBaseUrl, parse) == parse(Trim(value)).value.href
  {
  }

  /** The default redirect: the base URL minus one trailing "/" plus `path`, or the fixed production URL. */
  function DefaultUrl(appBaseUrl: string, path: string, production: string): (r: string)
    ensures appBaseUrl == "" ==> r == production
    ensures appBaseUrl != "" && appBaseUrl[|appBaseUrl| - 1] == '/' ==> r == appBaseUrl[..|appBaseUrl| - 1] + path
    ensures appBaseUrl != "" && appBaseUrl[|appBaseUrl| - 1] != '/' ==> r == appBaseUrl + path
  {
    if appBaseUrl != "" then StripTrailingSlash(appBaseUrl) + path else production
  }
}
