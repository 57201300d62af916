/** A simplified stand-in for Go's net/url.Parse: just the parts that decide the
    scheme and the host of an endpoint, and the errors those parts raise. */
module Urls {
  import opened Outcomes
  import opened Strings

  /** The two fields of *url.URL that the resolver reads. */
  datatype Url = Url(scheme: string, host: string)

  predicate IsControl(c: char) {
    c < ' ' || c == '\U{7F}'
  }

  predicate HasControl(s: string) {
    exists i :: 0 <= i < |s| && IsControl(s[i])
  }

  predicate IsLetter(c: char) {
    'a' <= c <= 'z' || 'A' <= c <= 'Z'
  }

  /** A character a scheme may hold after its first letter. */
  predicate IsSchemeChar(c: char) {
    IsLetter(c) || '0' <= c <= '9' || c == '+' || c == '-' || c == '.'
  }

  /** A scheme: a letter, then letters, digits, '+', '-' or '.'. */
  predicate IsScheme(s: string) {
    |s| > 0 && IsLetter(s[0]) && forall j :: 0 < j < |s| ==> IsSchemeChar(s[j])
  }

  /** getScheme, from position i on (raw[..i] already read as the start of a scheme):
      letters, then digits, '+', '-' or '.' after the first character, up to a ':'.
      Any other character, or none, means "no scheme". */
  function ScanScheme(raw: string, i: nat): (r: Result<(string, string), string>)
    requires i <= |raw|
    ensures r.Failure? <==> i == 0 && |raw| > 0 && raw[0] == ':'
    ensures r.Success? && r.value.0 == "" ==> r.value.1 == raw
    ensures r.Success? && r.value.0 != "" ==>
              raw == r.value.0 + ":" + r.value.1
    ensures (i == 0 || IsScheme(raw[..i])) && r.Success? && r.value.0 != "" ==>
              IsScheme(r.value.0)
    ensures (i == 0 || IsScheme(raw[..i])) && r.Success? && r.value.0 == "" ==>
              forall n :: 0 < n < |raw| && raw[n] == ':' ==> !IsScheme(raw[..n])
    decreases |raw| - i
  {
    if i == |raw| then Success(("", raw))
    else if IsLetter(raw[i]) then
      assert i > 0 ==> raw[..i + 1] == raw[..i] + [raw[i]];
      ScanScheme(raw, i + 1)
    else if '0' <= raw[i] <= '9' || raw[i] == '+' || raw[i] == '-' || raw[i] == '.' then
      if i == 0 then
        assert forall n :: 0 < n < |raw| ==> raw[..n][0] == raw[0];
        Success(("", raw))
      else
        assert raw[..i + 1] == raw[..i] + [raw[i]];
        ScanScheme(raw, i + 1)
    else if raw[i] == ':' then
      if i == 0 then Failure("missing protocol scheme")
      else
        assert raw == raw[..i] + ":" + raw[i + 1..];
        Success((raw[..i], raw[i + 1..]))
    else
      assert forall n :: i < n < |raw| ==> raw[..n][i] == raw[i];
      Success(("", raw))
  }

  /** validOptionalPort: empty, or a ':' followed by decimal digits only. */
  predicate ValidOptionalPort(port: string) {
    port == "" || (port[0] == ':' && AllDigits(port[1..]))
  }

  /** The ASCII characters that unescape(host, encodeHost) refuses in a host name.
      '%' is not among them: it starts an escape, which this model does not decode. */
  predicate IsInvalidHostChar(c: char) {
    c == ' ' || c == '\\' || c == '^' || c == '`' || c == '{' || c == '|' || c == '}'
  }

  /** The first character of s that may not appear in a host name, if any. */
  function FirstInvalidHostChar(s: string): (r: Option<char>)
    ensures r.None? <==> forall i :: 0 <= i < |s| ==> !IsInvalidHostChar(s[i])
    ensures r.Some? ==> IsInvalidHostChar(r.value) && r.value in s
    decreases |s|
  {
    if s == [] then None
    else if IsInvalidHostChar(s[0]) then Some(s[0])
    else
      var r := FirstInvalidHostChar(s[1..]);
      assert forall i :: 1 <= i < |s| ==> s[i] == s[1..][i - 1];
      r
  }

  /** parseHost, for hosts that are not bracketed IPv6 literals: whatever follows
      the last ':' must be a port of digits, and then no character of the host may
      be one that a host name cannot hold. */
  function ParseHost(host: string): (r: Result<string, string>)
    ensures r.Success? ==> r.value == host
    ensures r.Success? <==>
              && (HasPrefix(host, "[") || LastIndex(host, ':') == -1
                  || ValidOptionalPort(host[LastIndex(host, ':')..]))
              && forall i :: 0 <= i < |host| ==> !IsInvalidHostChar(host[i])
  {
    var i := LastIndex(host, ':');
    if !HasPrefix(host, "[") && i != -1 && !ValidOptionalPort(host[i..]) then
      Failure("invalid port \"" + host[i..] + "\" after host")
    else match FirstInvalidHostChar(host)
      case Some(c) => Failure("invalid character \"" + [c] + "\" in host name")
      case None => Success(host)
  }

  /** parseAuthority: the host is what follows the last '@' (the user information). */
  function ParseAuthority(authority: string): Result<string, string> {
    var i := LastIndex(authority, '@');
    ParseHost(if i == -1 then authority else authority[i + 1..])
  }

  /** What parse does once the scheme is split off and lower-cased: an opaque URL,
      a relative one, or one with an authority whose host it extracts. */
  function ParseAfterScheme(scheme: string, rest: string): (r: Result<Url, string>)
    ensures r.Success? ==> r.value.scheme == scheme
  {
    if !HasPrefix(rest, "/") && scheme != "" then
      Success(Url(scheme, ""))  // an opaque URL such as "mailto:x"
    else if !HasPrefix(rest, "/") && Contains(Before(rest, "/"), ":") then
      Failure("first path segment in URL cannot contain colon")
    else if (scheme != "" || !HasPrefix(rest, "///")) && HasPrefix(rest, "//") then
      match ParseAuthority(Before(rest[2..], "/"))
      case Failure(reason) => Failure(reason)
      case Success(host) => Success(Url(scheme, host))
    else Success(Url(scheme, ""))
  }

  /** parse(u, false), the fragment already cut off: the reason of a failure, or the URL. */
  function Parse(u: string): (r: Result<Url, string>)
    ensures HasControl(u) ==> r.Failure?
    ensures r.Success? ==> forall i :: 0 <= i < |r.value.scheme| ==> !('A' <= r.value.scheme[i] <= 'Z')
  {
    if HasControl(u) then Failure("net/url: invalid control character in URL")
    else if u == "*" then Success(Url("", ""))
    else match ScanScheme(u, 0)
      case Failure(reason) => Failure(reason)
      case Success(split) => ParseAfterScheme(Lower(split.0), Before(split.1, "?"))
  }

  /** url.Parse: the fragment after the first '#' is cut off before parsing, and a
      failure is reported as a *url.Error naming the text parsed. */
  function ParseUrl(raw: string): (r: Result<Url, Error>)
    ensures r.Failure? ==> r.error.UrlError? && r.error.url == Before(raw, "#")
    ensures HasControl(Before(raw, "#")) ==> r.Failure?
    ensures r.Success? ==> forall i :: 0 <= i < |r.value.scheme| ==> !('A' <= r.value.scheme[i] <= 'Z')
    ensures r.Success? ==> Parse(Before(raw, "#")) == Success(r.value)
  {
    var u := Before(raw, "#");
    match Parse(u)
    case Success(url) => Success(url)
    case Failure(reason) => Failure(UrlError("parse", u, reason))
  }

  /** The text of an absolute URL with an authority and nothing after the host. */
  function FormatUrl(u: Url): string {
    u.scheme + "://" + u.host
  }

  /** Text that parse takes whole as the authority after "//", with no user information:
      no control character and none of '#', '?', '/' and '@'. */
  predicate IsAuthorityText(host: string) {
    && !HasControl(host)
    && '#' !in host && '?' !in host && '/' !in host && '@' !in host
  }

  /** A host that url.Parse gives back unchanged: authority text, not bracketed, with a
      numeric port, and with no character a host name cannot hold and no escape. */
  predicate IsPlainHost(host: string) {
    && IsAuthorityText(host)
    && (host == [] || host[0] != '[')
    && (LastIndex(host, ':') == -1 || ValidOptionalPort(host[LastIndex(host, ':')..]))
    && forall i :: 0 <= i < |host| ==> !IsInvalidHostChar(host[i]) && host[i] != '%'
  }

  lemma {:induction false} ScanSchemeWord(raw: string, i: nat, n: nat)
    requires 0 <= i <= n < |raw| && n > 0 && raw[n] == ':'
    requires forall j :: i <= j < n ==> 'a' <= raw[j] <= 'z'
    ensures ScanScheme(raw, i) == Success((raw[..n], raw[n + 1..]))
    decreases n - i
  {
    if i < n {
      ScanSchemeWord(raw, i + 1, n);
    }
  }

  /** After a scheme, "//" + authority text comes down to parseHost on that text. */
  lemma ParseAuthorityAfterScheme(scheme: string, host: string)
    requires scheme != "" && IsAuthorityText(host)
    ensures ParseAfterScheme(scheme, "//" + host) ==
              if ParseHost(host).Success? then Success(Url(scheme, host))
              else Failure(ParseHost(host).error)
  {
    var rest := "//" + host;
    assert HasPrefix(rest, "//");
    assert rest[2..] == host;
    BeforeAbsent(host, '/');
    assert ParseAuthority(host) == ParseHost(host);
  }

  /** The text of such a URL has no fragment mark and no control character. */
  lemma FormatUrlClean(u: Url)
    requires IsLowerWord(u.scheme) && IsAuthorityText(u.host)
    ensures '#' !in FormatUrl(u) && !HasControl(FormatUrl(u))
  {
    var raw := FormatUrl(u);
    var n := |u.scheme|;
    forall i | 0 <= i < |raw| ensures raw[i] != '#' && !IsControl(raw[i]) {
      if i >= n + 3 { assert raw[i] == u.host[i - n - 3]; }
    }
  }

  /** parse splits such a text into its scheme and its authority, and parses the host. */
  lemma ParseFormatUrl(u: Url)
    requires |u.scheme| > 0 && IsLowerWord(u.scheme) && IsAuthorityText(u.host)
    ensures Parse(FormatUrl(u)) ==
              if ParseHost(u.host).Success? then Success(u) else Failure(ParseHost(u.host).error)
  {
    var raw := FormatUrl(u);
    var n := |u.scheme|;
    FormatUrlClean(u);
    assert raw[n] == ':';
    ScanSchemeWord(raw, 0, n);
    assert raw[..n] == u.scheme;
    var rest := raw[n + 1..];
    assert rest == "//" + u.host;
    LowerOfLowerWord(u.scheme);
    assert '?' !in rest;
    BeforeAbsent(rest, '?');
    ParseAuthorityAfterScheme(u.scheme, u.host);
  }

  /** url.Parse of scheme + "://" + authority text: the URL when its host parses, and
      otherwise a url error carrying parseHost's reason. */
  lemma ParseSchemeAuthority(u: Url)
    requires |u.scheme| > 0 && IsLowerWord(u.scheme) && IsAuthorityText(u.host)
    ensures ParseUrl(FormatUrl(u)) ==
              if ParseHost(u.host).Success? then Success(u)
              else Failure(UrlError("parse", FormatUrl(u), ParseHost(u.host).error))
  {
    FormatUrlClean(u);
    BeforeAbsent(FormatUrl(u), '#');
    ParseFormatUrl(u);
  }

  /** Parsing the text of a URL with a lower-case scheme and a plain host gives that URL back. */
  lemma ParseUrlRoundTrip(u: Url)
    requires |u.scheme| > 0 && IsLowerWord(u.scheme) && IsPlainHost(u.host)
    ensures ParseUrl(FormatUrl(u)) == Success(u)
  {
    ParseSchemeAuthority(u);
  }

  /** A host holding a character that a host name cannot hold, such as a space, is an
      error, whatever the scheme. */
  lemma InvalidHostCharRejected(u: Url, i: nat)
    requires |u.scheme| > 0 && IsLowerWord(u.scheme) && IsAuthorityText(u.host)
    requires i < |u.host| && IsInvalidHostChar(u.host[i])
    ensures ParseUrl(FormatUrl(u)).Failure?
  {
    ParseSchemeAuthority(u);
  }

  /** An endpoint written as a bare host:port, such as "10.0.0.1:8080", has no scheme
      and a colon in its first path segment, so url.Parse rejects it. */
  lemma BareHostPortRejected(hostport: string)
    requires IsPlainHost(hostport) && ':' in hostport
    requires |hostport| > 0 && '0' <= hostport[0] <= '9'
    ensures ParseUrl(hostport).Failure?
  {
    BeforeAbsent(hostport, '#');
    assert ScanScheme(hostport, 0) == Success(("", hostport));
    assert Lower("") == "";
    BeforeAbsent(hostport, '?');
    BeforeAbsent(hostport, '/');
    IndexOfChar(hostport, ':');
  }
}
