/**
 `getProjectName` and `getGitlabBaseURL`: splitting a project URL into the base URL and the
 project name that address the GitLab API.

 `url.Parse` is modelled as far as the path goes: the parts of section 3 of RFC 3986, percent
 decoding of the path, and the errors for a missing scheme, a colon in a first relative segment
 and a malformed escape.
 */
module ProjectUrls {
  import opened Outcomes
  import opened Strings

  /** Where the undecoded path of a URL starts and ends; scheme and authority precede it, query and fragment follow. */
  datatype Span = Span(start: nat, end: nat)

  predicate IsAlpha(c: char) { 'a' <= c <= 'z' || 'A' <= c <= 'Z' }

  predicate IsSchemeTail(c: char) { IsAlpha(c) || '0' <= c <= '9' || c == '+' || c == '-' || c == '.' }

  /** The length of the scheme before its colon, 0 for no scheme, or an error for an empty one. */
  function SchemeLength(s: string): (r: Outcome<nat>)
    ensures r.Ok? ==> r.value < |s| || r.value == 0
    ensures r.Ok? && r.value > 0 ==> s[r.value] == ':'
  {
    var i := IndexOf(s, ':');
    if i == |s| then Ok(0)
    else if i == 0 then Error
    else if IsAlpha(s[0]) && forall k :: 1 <= k < i ==> IsSchemeTail(s[k]) then Ok(i)
    else Ok(0)
  }

  function HexValue(c: char): Option<nat> {
    if '0' <= c <= '9' then Some(c as int - '0' as int)
    else if 'a' <= c <= 'f' then Some(c as int - 'a' as int + 10)
    else if 'A' <= c <= 'F' then Some(c as int - 'A' as int + 10)
    else None
  }

  /** Percent decoding. */
  function Unescape(s: string): Option<string> {
    if s == "" then Some("")
    else if s[0] != '%' then
      match Unescape(s[1..]) case None => None case Some(t) => Some([s[0]] + t)
    else if |s| < 3 then None
    else
      match (HexValue(s[1]), HexValue(s[2]), Unescape(s[3..]))
      case (Some(h), Some(l), Some(t)) => assert 16 * h + l < 256; Some([(16 * h + l) as char] + t)
      case _ => None
  }

  /** Where the path starts in `rest`, the part after the scheme and before the query; an opaque part has no path. */
  function PathStart(rest: string, hasScheme: bool): (r: Outcome<nat>)
    ensures r.Ok? ==> r.value <= |rest|
    ensures !r.Panic?
  {
    if "//" <= rest && (hasScheme || !("///" <= rest)) then Ok(2 + IndexOf(rest[2..], '/'))
    else if "/" <= rest then Ok(0)
    else if hasScheme then Ok(|rest|)
    else if IndexOf(rest, ':') < IndexOf(rest, '/') then Error
    else Ok(0)
  }

  /** The path of a URL without fragment. */
  function BodySpan(front: string): (r: Outcome<Span>)
    ensures r.Ok? ==> r.value.start <= r.value.end <= |front|
    ensures !r.Panic?
  {
    match SchemeLength(front)
    case Panic => Error
    case Error => Error
    case Ok(n) =>
      var start := if n > 0 then n + 1 else 0;
      var query := start + IndexOf(front[start..], '?');
      match PathStart(front[start..query], n > 0)
      case Panic => Error
      case Error => Error
      case Ok(k) => Ok(Span(start + k, query))
  }

  /** `url.Parse`, reduced to the position of the path. */
  function PathSpan(url: string): (r: Outcome<Span>)
    ensures r.Ok? ==> r.value.start <= r.value.end <= |url|
    ensures !r.Panic?
  {
    var hash := IndexOf(url, '#');
    if hash < |url| && Unescape(url[hash + 1..]).None? then Error
    else BodySpan(url[..hash])
  }

  function RawPath(url: string): string
    requires PathSpan(url).Ok?
  {
    url[PathSpan(url).value.start..PathSpan(url).value.end]
  }

  /** `u.Path` of the parsed URL. */
  function UrlPath(url: string): Outcome<string> {
    match PathSpan(url)
    case Panic => Panic
    case Error => Error
    case Ok(_) => match Unescape(RawPath(url)) case None => Error case Some(t) => Ok(t)
  }

  /** `u.Path[1:]`, a run-time panic when the path is empty. */
  function GetProjectName(url: string): Outcome<string> {
    match UrlPath(url)
    case Ok(p) => if p == "" then Panic else Ok(p[1..])
    case r => r
  }

  function GetGitlabBaseURL(url: string): Outcome<string> {
    match GetProjectName(url)
    case Ok(name) => Ok(TrimSuffix(url, name))
    case r => r
  }

  /** The base URL and project that both `createWebhook` and `deleteWebhook` hand to the webhook client. */
  datatype Address = Address(baseURL: string, project: string)

  function AddressOf(url: string): Outcome<Address> {
    match GetProjectName(url)
    case Ok(name) => Ok(Address(TrimSuffix(url, name), name))
    case Error => Error
    case Panic => Panic
  }

  // ---------- What the split gets right ----------

  lemma {:induction false} UnescapeFacts(s: string)
    requires Unescape(s).Some?
    ensures |Unescape(s).value| <= |s|
    ensures '%' !in s ==> Unescape(s).value == s
    ensures '%' in s ==> |Unescape(s).value| < |s|
    ensures s != "" ==> Unescape(s).value != ""
    ensures s != "" && s[0] != '%' ==> Unescape(s).value[0] == s[0]
  {
    if s != "" {
      if s[0] != '%' {
        UnescapeFacts(s[1..]);
        assert s == [s[0]] + s[1..];
      } else {
        UnescapeFacts(s[3..]);
      }
    }
  }

  /** For every parsed URL with a non-empty path the base is a prefix of the URL; an empty path is a panic. */
  lemma BaseIsPrefix(url: string)
    ensures GetGitlabBaseURL(url).Ok? <==> PathSpan(url).Ok? && Unescape(RawPath(url)).Some? && RawPath(url) != ""
    ensures GetGitlabBaseURL(url).Ok? ==> GetGitlabBaseURL(url).value <= url
    ensures GetProjectName(url).Panic? <==> PathSpan(url).Ok? && RawPath(url) == ""
  {
    if PathSpan(url).Ok? && Unescape(RawPath(url)).Some? {
      UnescapeFacts(RawPath(url));
    }
  }

  lemma {:induction false} NoEscapeDecodes(s: string)
    requires '%' !in s
    ensures Unescape(s) == Some(s)
  {
    if s != "" {
      NoEscapeDecodes(s[1..]);
      assert s == [s[0]] + s[1..];
    }
  }

  /** When trimming `name` leaves exactly the first `start` characters and a slash. */
  lemma TrimsTo(url: string, start: nat, name: string)
    requires start < |url| && |name| <= |url| - start - 1
    ensures TrimSuffix(url, name) == url[..start] + "/" <==> url[start] == '/' && url[start + 1..] == name
  {
    assert url[..start + 1] == url[..start] + [url[start]];
    assert (url[..start] + "/")[start] == '/';
    if TrimSuffix(url, name) == url[..start] + "/" {
      assert |TrimSuffix(url, name)| == start + 1;
    }
  }

  /** The decoded rest of the path is the rest of the URL exactly when nothing was decoded and nothing follows. */
  lemma RestOfUrl(url: string, start: nat, end: nat)
    requires start < end <= |url| && Unescape(url[start..end]).Some?
    ensures 0 < |Unescape(url[start..end]).value| <= end - start
    ensures Unescape(url[start..end]).value[1..] == url[start + 1..] <==> end == |url| && '%' !in url[start..end]
  {
    var raw := url[start..end];
    UnescapeFacts(raw);
    TailOfSlice(url, start);
    if Unescape(raw).value[1..] == url[start + 1..] {
      assert |Unescape(raw).value| - 1 == |url| - start - 1;
    }
  }

  /**
   The base URL is everything before the path, with a slash, exactly when the path starts with a slash, has no
   escape, and nothing (no query, no fragment) follows it. Any other URL keeps part of its path in the base,
   or loses the first character of its path to it.
   */
  lemma BaseCorrectIff(url: string)
    requires PathSpan(url).Ok? && RawPath(url) != "" && Unescape(RawPath(url)).Some?
    ensures var p := PathSpan(url).value;
      GetGitlabBaseURL(url) == Ok(url[..p.start] + "/") <==> "/" <= RawPath(url) && p.end == |url| && '%' !in RawPath(url)
  {
    hide PathSpan, Unescape, TrimSuffix;
    var p := PathSpan(url).value;
    RestOfUrl(url, p.start, p.end);
    TrimsTo(url, p.start, Unescape(RawPath(url)).value[1..]);
    assert RawPath(url)[0] == url[p.start];
  }

  /** A non-empty path without escapes, and nothing after it. */
  predicate PlainUrl(url: string) {
    PathSpan(url).Ok? && RawPath(url) != "" && PathSpan(url).value.end == |url| && '%' !in RawPath(url)
  }

  /** For such URLs the split loses nothing, so different URLs get different addresses. */
  lemma SplitIsLossless(url: string)
    requires PlainUrl(url)
    ensures AddressOf(url).Ok? && AddressOf(url).value.baseURL + AddressOf(url).value.project == url
  {
    var cut := PathSpan(url).value.start + 1;
    NoEscapeDecodes(RawPath(url));
    TailOfSlice(url, cut - 1);
    assert GetProjectName(url) == Ok(url[cut..]);
    TrimCut(url, cut);
  }

  lemma {:induction false} IndexOfAbsent(s: string, c: char)
    requires c !in s
    ensures IndexOf(s, c) == |s|
  {
    if s != "" {
      assert s == [s[0]] + s[1..];
      IndexOfAbsent(s[1..], c);
    }
  }

  /** A URL that is nothing but a relative path: no scheme, no query, no fragment, no escape. */
  predicate Relative(url: string) {
    url != "" && url[0] != '/' && ':' !in url && '#' !in url && '?' !in url && '%' !in url
  }

  /** A URL without scheme, such as a host and a path, is cut after its first character: that is the base URL, the rest the project. */
  lemma SchemelessIsCut(url: string)
    requires Relative(url)
    ensures AddressOf(url) == Ok(Address(url[..1], url[1..])) && !("/" <= RawPath(url))
  {
    IndexOfAbsent(url, '#');
    IndexOfAbsent(url, ':');
    IndexOfAbsent(url, '?');
    assert url[..|url|] == url && url[0..] == url;
    assert PathSpan(url) == Ok(Span(0, |url|));
    assert RawPath(url) == url;
    NoEscapeDecodes(url);
    TrimCut(url, 1);
  }

  lemma TailOfSlice(s: string, i: nat)
    requires i < |s|
    ensures s[i..|s|][1..] == s[i + 1..]
  {
  }

  lemma TrimCut(s: string, cut: nat)
    requires cut <= |s|
    ensures TrimSuffix(s, s[cut..]) == s[..cut]
    ensures s[..cut] + s[cut..] == s
  {
  }

  lemma AddressInjective(url1: string, url2: string)
    requires PlainUrl(url1) && PlainUrl(url2)
    requires AddressOf(url1) == AddressOf(url2)
    ensures url1 == url2
  {
    SplitIsLossless(url1);
    SplitIsLossless(url2);
  }
}
