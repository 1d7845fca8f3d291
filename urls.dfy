/** URL resolution (`HttpClient.getUrl`): a missing URI is an error, an
    absolute URI is used as it stands, and anything else is appended to the
    configured base URL. */
module Urls {
  import opened Wrappers
  import opened HttpTypes

  /** The characters at which `java.net.URI` stops looking for the colon
      that ends a scheme: the colon itself and '/', '?', '#'. */
  predicate IsDelimiter(c: char) {
    c == ':' || c == '/' || c == '?' || c == '#'
  }

  predicate IsAlpha(c: char) {
    'a' <= c <= 'z' || 'A' <= c <= 'Z'
  }

  /** Characters allowed after the first one of a scheme name (RFC 2396, section 3.1). */
  predicate IsSchemeChar(c: char) {
    IsAlpha(c) || '0' <= c <= '9' || c == '+' || c == '-' || c == '.'
  }

  /** The length of the longest prefix of `s` that holds no delimiter. */
  function ScanToDelimiter(s: string): (p: nat)
    ensures p <= |s|
    ensures forall i | 0 <= i < p :: !IsDelimiter(s[i])
    ensures p < |s| ==> IsDelimiter(s[p])
  {
    if s == [] || IsDelimiter(s[0]) then 0 else 1 + ScanToDelimiter(s[1..])
  }

  /** `java.net.URI.isAbsolute()`: the URI begins with a scheme name, a
      letter followed by scheme characters, ended by a colon that comes
      before any '/', '?' or '#'. */
  predicate HasScheme(uri: string): (r: bool)
    // the same test stated without the scan: some colon has no delimiter before it
    ensures r <==> exists p | 0 < p < |uri| :: IsSchemePrefix(uri, p)
  {
    var p := ScanToDelimiter(uri);
    assert forall q | 0 < q < |uri| && IsSchemePrefix(uri, q) :: q == p;
    assert (0 < p < |uri| && uri[p] == ':' && IsAlpha(uri[0]) &&
            forall i | 1 <= i < p :: IsSchemeChar(uri[i])) ==> IsSchemePrefix(uri, p);
    0 < p < |uri| && uri[p] == ':' && IsAlpha(uri[0]) &&
    forall i | 1 <= i < p :: IsSchemeChar(uri[i])
  }

  /** `uri[..p]` is a scheme name and `uri[p]` the colon that ends it, with no
      '/', '?', '#' or earlier colon before it. */
  predicate IsSchemePrefix(uri: string, p: nat)
    requires p < |uri|
  {
    uri[p] == ':' && IsAlpha(uri[0]) &&
    (forall i | 0 <= i < p :: !IsDelimiter(uri[i])) &&
    (forall i | 1 <= i < p :: IsSchemeChar(uri[i]))
  }

  /** The exception raised for a null URI. */
  const NullUriError := UriSyntax("(null)", "HttpClient URL misconfigured")

  /** Resolves `uri` against the base URL `location`. */
  function GetUrl(location: Option<string>, uri: Option<string>): (r: Result<string, Error>)
    ensures r.Failure? <==> uri.None?
    ensures r.Failure? ==> r.error == NullUriError
    // the URI itself always survives verbatim, at the end of the result
    ensures r.Success? ==> |uri.value| <= |r.value| && r.value[|r.value| - |uri.value|..] == uri.value
    ensures r.Success? && HasScheme(uri.value) ==> r.value == uri.value
  {
    match uri
    case None => Failure(NullUriError)
    case Some(u) =>
      if HasScheme(u) then Success(u) else Success(Show(location) + u)
  }

  /** An absolute URI is returned unchanged, whatever the base URL. */
  lemma AbsoluteIgnoresBase(location1: Option<string>, location2: Option<string>, uri: string)
    requires HasScheme(uri)
    ensures GetUrl(location1, Some(uri)) == GetUrl(location2, Some(uri)) == Success(uri)
  {
  }

  /** A relative URI is glued to the base URL with nothing inserted or
      removed: the base is a prefix, the URI the rest. */
  lemma RelativeIsConcatenation(location: string, uri: string)
    requires !HasScheme(uri)
    ensures GetUrl(Some(location), Some(uri)).Success?
    ensures var url := GetUrl(Some(location), Some(uri)).value;
      |url| == |location| + |uri| && url[..|location|] == location && url[|location|..] == uri
  {
  }

  /** With no base URL configured, a relative URI resolves against the text
      "null", as Java's string formatting renders a null reference. */
  lemma RelativeAgainstNullBase(uri: string)
    requires !HasScheme(uri)
    ensures GetUrl(None, Some(uri)) == Success("null" + uri)
  {
  }

  /** A path that starts with '/' is never absolute, so it is always appended
      to the base URL. */
  lemma RootedPathIsRelative(location: Option<string>, path: string)
    requires |path| > 0 && path[0] == '/'
    ensures GetUrl(location, Some(path)) == Success(Show(location) + path)
  {
  }

  /** The scan stops exactly at the first delimiter: a delimiter-free word
      followed by a delimiter scans to the length of the word. */
  lemma {:induction false} ScanStopsAtDelimiter(word: string, rest: string)
    requires forall i | 0 <= i < |word| :: !IsDelimiter(word[i])
    requires |rest| > 0 && IsDelimiter(rest[0])
    ensures ScanToDelimiter(word + rest) == |word|
  {
    if word != [] {
      assert (word + rest)[1..] == word[1..] + rest;
      ScanStopsAtDelimiter(word[1..], rest);
    }
  }

  /** A well-formed scheme name followed by a colon makes a URI absolute,
      whatever comes after the colon. */
  lemma {:induction false} SchemeMakesAbsolute(scheme: string, rest: string)
    requires |scheme| > 0 && IsAlpha(scheme[0])
    requires forall i | 1 <= i < |scheme| :: IsSchemeChar(scheme[i])
    ensures HasScheme(scheme + ":" + rest)
  {
    var u := scheme + ":" + rest;
    assert u == scheme + (":" + rest);
    forall i | 0 <= i < |scheme| ensures !IsDelimiter(scheme[i]) {
      assert i == 0 ==> IsAlpha(scheme[i]);
      assert i > 0 ==> IsSchemeChar(scheme[i]);
    }
    ScanStopsAtDelimiter(scheme, ":" + rest);
    assert u[|scheme|] == ':';
    assert forall i | 1 <= i < |scheme| :: u[i] == scheme[i];
  }

  /** Any "https://…" or "http://…" URI is absolute, so it bypasses the base URL. */
  lemma {:induction false} HttpUrlsAreAbsolute(location: Option<string>, rest: string)
    ensures GetUrl(location, Some("https://" + rest)) == Success("https://" + rest)
    ensures GetUrl(location, Some("http://" + rest)) == Success("http://" + rest)
  {
    assert "https" + ":" + ("//" + rest) == "https://" + rest;
    SchemeMakesAbsolute("https", "//" + rest);
    assert "http" + ":" + ("//" + rest) == "http://" + rest;
    SchemeMakesAbsolute("http", "//" + rest);
  }
}
