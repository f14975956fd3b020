/**
 What base URL and project name each form of project URL gets, by the text of the URL alone: with a scheme and
 a host, opaque, rooted, relative, with a query or a fragment, and with escapes.
 */
module UrlBranches {
  import opened Outcomes
  import opened Strings
  import opened ProjectUrls

  /** A letter, followed by letters, digits, plus, minus and dot. */
  predicate IsScheme(s: string) {
    s != "" && IsAlpha(s[0]) && forall k :: 1 <= k < |s| ==> IsSchemeTail(s[k])
  }

  /** Nothing in `s` starts a query or a fragment. */
  predicate Unended(s: string) { '?' !in s && '#' !in s }

  /** What may stand between the two slashes and the path. */
  predicate IsHost(s: string) { '/' !in s && Unended(s) }

  /** A path, or part of one, of which nothing is decoded. */
  predicate IsPath(s: string) { '%' !in s && Unended(s) }

  /** `IndexOf` is determined by what it promises. */
  lemma IndexIs(s: string, c: char, k: nat)
    requires k <= |s| && c !in s[..k] && (k < |s| ==> s[k] == c)
    ensures IndexOf(s, c) == k
  {
    var i := IndexOf(s, c);
    InFront(s, i, k);
    InFront(s, k, i);
  }

  lemma InFront(s: string, i: int, k: int)
    ensures 0 <= i < k <= |s| ==> s[i] in s[..k]
  {
    if 0 <= i < k <= |s| { assert s[..k][i] == s[i]; }
  }

  /** A character that comes neither in `a` nor right behind it. */
  lemma IndexAfter(a: string, d: char, b: string, c: char)
    requires c !in a && c != d
    ensures IndexOf(a + [d] + b, c) > |a|
  {
    var s := a + [d] + b;
    forall k | 0 <= k <= |a| ensures s[k] != c {
      if k < |a| { assert s[k] == a[k]; }
    }
  }

  /** One slash does not make two. */
  lemma OneSlashOnly(a: string)
    requires !("/" <= a)
    ensures !("//" <= a) && !("//" <= "/" + a)
  {
    if a != "" { assert a[0] != '/' && ("/" + a)[1] == a[0]; }
  }

  lemma FirstAt(a: string, c: char, b: string)
    requires c !in a
    ensures IndexOf(a + [c] + b, c) == |a|
  {
    var s := a + [c] + b;
    assert s[..|a|] == a;
    IndexIs(s, c, |a|);
  }

  lemma SchemeIsFree(scheme: string)
    requires IsScheme(scheme)
    ensures IsHost(scheme) && ':' !in scheme && '%' !in scheme
  {
    forall c | c in scheme ensures IsSchemeTail(c) {
      var k :| 0 <= k < |scheme| && scheme[k] == c;
    }
  }

  lemma SchemeFound(scheme: string, rest: string)
    requires IsScheme(scheme)
    ensures SchemeLength(scheme + [':'] + rest) == Ok(|scheme|)
  {
    var s := scheme + [':'] + rest;
    SchemeIsFree(scheme);
    FirstAt(scheme, ':', rest);
    assert s[0] == scheme[0];
    assert forall k :: 1 <= k < |scheme| ==> s[k] == scheme[k];
  }

  /** The path of `url` starts `k` characters after `start`, and goes to the end. */
  predicate StartsAt(url: string, start: nat, k: Outcome<nat>) {
    PathSpan(url) == match k case Ok(n) => Ok(Span(start + n, |url|)) case _ => Error
  }

  /** Without query and fragment the path goes to the end. */
  lemma SpanOfPlain(url: string, n: nat)
    requires Unended(url) && SchemeLength(url) == Ok(n)
    ensures var start := if n > 0 then n + 1 else 0;
      start <= |url| && StartsAt(url, start, PathStart(url[start..], n > 0))
  {
    hide SchemeLength, PathStart;
    SchemeBound(url);
    IndexOfAbsent(url, '#');
    assert url[..|url|] == url;
    var start := if n > 0 then n + 1 else 0;
    IndexOfAbsent(url[start..], '?');
    assert url[start..|url|] == url[start..];
  }

  lemma SchemeBound(url: string)
    ensures SchemeLength(url).Ok? && SchemeLength(url).value > 0 ==> SchemeLength(url).value < |url|
  {
  }

  lemma SpanAfterScheme(scheme: string, rest: string)
    requires IsScheme(scheme) && Unended(rest)
    ensures StartsAt(scheme + [':'] + rest, |scheme| + 1, PathStart(rest, true))
  {
    hide SchemeLength, PathStart, StartsAt;
    var url := scheme + [':'] + rest;
    SchemeFound(scheme, rest);
    SchemeIsFree(scheme);
    SpanOfPlain(url, |scheme|);
    assert url[|scheme| + 1..] == rest;
  }

  lemma SpanWithoutScheme(url: string)
    requires Unended(url) && SchemeLength(url) == Ok(0)
    ensures StartsAt(url, 0, PathStart(url, false))
  {
    hide SchemeLength, PathStart, StartsAt;
    SpanOfPlain(url, 0);
    assert url[0..] == url;
  }

  /** After two slashes the host goes to the next slash, or to the end. */
  lemma AfterHost(host: string, tail: string, hasScheme: bool)
    requires '/' !in host && (tail == "" || "/" <= tail) && (hasScheme || host != "")
    ensures PathStart("//" + host + tail, hasScheme) == Ok(2 + |host|)
  {
    var rest := "//" + host + tail;
    assert rest[2..] == host + tail;
    if tail == "" {
      assert host + tail == host;
      IndexOfAbsent(host, '/');
    } else {
      assert host + tail == host + ['/'] + tail[1..];
      FirstAt(host, '/', tail[1..]);
    }
    if host != "" { assert rest[2] == host[0]; }
  }

  /** A path of which nothing is decoded is cut after its first character. */
  lemma CutAfterFirst(front: string, path: string)
    requires path != "" && '%' !in path && PathSpan(front + path) == Ok(Span(|front|, |front + path|))
    ensures AddressOf(front + path) == Ok(Address(front + path[..1], path[1..]))
  {
    hide PathSpan, Unescape;
    var url := front + path;
    assert url[|front|..|url|] == path;
    NoEscapeDecodes(path);
    TrimCut(url, |front| + 1);
    assert url[..|front| + 1] == front + path[..1] && url[|front| + 1..] == path[1..];
  }

  lemma CutAtOnce(url: string)
    requires url != "" && '%' !in url && PathSpan(url) == Ok(Span(0, |url|))
    ensures AddressOf(url) == Ok(Address(url[..1], url[1..]))
  {
    hide PathSpan, AddressOf;
    assert "" + url == url && "" + url[..1] == url[..1];
    CutAfterFirst("", url);
  }

  lemma NoPathPanics(url: string)
    requires PathSpan(url) == Ok(Span(|url|, |url|))
    ensures AddressOf(url) == Panic
  {
    assert RawPath(url) == "";
  }

  // ---------- With a scheme ----------

  /** Where the path of a URL with a host starts. */
  lemma SpanAfterHost(scheme: string, host: string, tail: string)
    requires IsScheme(scheme) && IsHost(host) && Unended(tail) && (tail == "" || "/" <= tail)
    ensures var front := scheme + "://" + host; PathSpan(front + tail) == Ok(Span(|front|, |front + tail|))
  {
    hide PathSpan, PathStart;
    var rest := "//" + host + tail;
    assert scheme + "://" + host + tail == scheme + [':'] + rest;
    AfterHost(host, tail, true);
    SpanAfterScheme(scheme, rest);
  }

  /** The usual form: everything up to the slash that ends the host is the base URL, the rest the project. */
  lemma WebUrl(scheme: string, host: string, path: string)
    requires IsScheme(scheme) && IsHost(host) && IsPath(path)
    ensures AddressOf(scheme + "://" + host + "/" + path) == Ok(Address(scheme + "://" + host + "/", path))
  {
    hide PathSpan, AddressOf, IsScheme;
    var front := scheme + "://" + host;
    SpanAfterHost(scheme, host, "/" + path);
    assert front + ("/" + path) == scheme + "://" + host + "/" + path;
    CutAfterFirst(front, "/" + path);
  }

  /** Nothing after the host: the index panic. */
  lemma HostOnly(scheme: string, host: string)
    requires IsScheme(scheme) && IsHost(host)
    ensures AddressOf(scheme + "://" + host) == Panic
  {
    hide PathSpan, AddressOf, IsScheme;
    var front := scheme + "://" + host;
    SpanAfterHost(scheme, host, "");
    assert front + "" == front;
    NoPathPanics(front);
  }

  /** What follows a scheme without a slash is opaque, not a path. */
  lemma OpaqueUrl(scheme: string, rest: string)
    requires IsScheme(scheme) && Unended(rest) && !("/" <= rest)
    ensures AddressOf(scheme + ":" + rest) == Panic
  {
    hide PathSpan, AddressOf, IsScheme;
    SpanAfterScheme(scheme, rest);
    OneSlashOnly(rest);
    NoPathPanics(scheme + ":" + rest);
  }

  lemma SchemeAndPath(scheme: string, path: string)
    requires IsScheme(scheme) && IsPath(path) && !("/" <= path)
    ensures AddressOf(scheme + ":/" + path) == Ok(Address(scheme + ":/", path))
  {
    hide PathSpan, AddressOf, IsScheme;
    var front, rest := scheme + ":", "/" + path;
    assert front == scheme + [':'];
    SpanAfterScheme(scheme, rest);
    OneSlashOnly(path);
    CutAfterFirst(front, rest);
    assert front + rest == scheme + ":/" + path && front + rest[..1] == scheme + ":/" && rest[1..] == path;
  }

  // ---------- Without a scheme ----------

  lemma NoScheme(url: string)
    requires "/" <= url
    ensures SchemeLength(url) == Ok(0)
  {
  }

  lemma RootedPath(path: string)
    requires IsPath(path) && !("/" <= path)
    ensures AddressOf("/" + path) == Ok(Address("/", path))
  {
    hide PathSpan, AddressOf, SchemeLength;
    var url := "/" + path;
    NoScheme(url);
    SpanWithoutScheme(url);
    OneSlashOnly(path);
    CutAtOnce(url);
  }

  lemma HostAndPath(host: string, path: string)
    requires host != "" && IsHost(host) && IsPath(path)
    ensures AddressOf("//" + host + "/" + path) == Ok(Address("//" + host + "/", path))
  {
    hide PathSpan, AddressOf, SchemeLength, PathStart;
    var front := "//" + host;
    var url := front + ("/" + path);
    assert url == "//" + host + "/" + path && url[0] == '/';
    NoScheme(url);
    SpanWithoutScheme(url);
    AfterHost(host, "/" + path, false);
    CutAfterFirst(front, "/" + path);
    assert front + ("/" + path)[..1] == "//" + host + "/";
  }

  lemma HostWithoutPath(host: string)
    requires host != "" && IsHost(host)
    ensures AddressOf("//" + host) == Panic
  {
    hide PathSpan, AddressOf, SchemeLength, PathStart;
    var url := "//" + host;
    assert url == "//" + host + "" && url[0] == '/';
    NoScheme(url);
    SpanWithoutScheme(url);
    AfterHost(host, "", false);
    NoPathPanics(url);
  }

  /** Three slashes without a scheme: there is no host, and all of it is path. */
  lemma ThreeSlashes(path: string)
    requires IsPath(path)
    ensures AddressOf("///" + path) == Ok(Address("/", "//" + path))
  {
    hide PathSpan, AddressOf, SchemeLength;
    var url := "///" + path;
    assert url == ['/'] + ("//" + path);
    NoScheme(url);
    SpanWithoutScheme(url);
    CutAtOnce(url);
  }

  /** A first segment that holds a colon but is no scheme is an error, whatever follows. */
  lemma ColonInSegment(segment: string, rest: string)
    requires !IsScheme(segment) && IsHost(segment) && ':' !in segment
    ensures AddressOf(segment + ":" + rest) == Error
  {
    hide SchemeLength, BodySpan;
    var url := segment + ":" + rest;
    var hash := IndexOf(url, '#');
    assert url == segment + [':'] + rest;
    IndexAfter(segment, ':', rest, '#');
    var more := url[|segment| + 1..hash];
    assert url[..hash] == segment + [':'] + more;
    ColonFirst(segment, more);
  }

  lemma ColonFirst(segment: string, more: string)
    requires !IsScheme(segment) && IsHost(segment) && ':' !in segment
    ensures BodySpan(segment + [':'] + more) == Error
  {
    hide PathStart;
    var front := segment + [':'] + more;
    NoSchemeSegment(segment, more);
    if segment != "" {
      assert front[0..] == front;
      var query := IndexOf(front, '?');
      IndexAfter(segment, ':', more, '?');
      var rest := front[..query];
      assert front[0..0 + query] == rest;
      assert rest == segment + [':'] + front[|segment| + 1..query];
      ColonStart(segment, front[|segment| + 1..query]);
    }
  }

  lemma NoSchemeSegment(segment: string, more: string)
    requires !IsScheme(segment) && ':' !in segment
    ensures SchemeLength(segment + [':'] + more) == if segment == "" then Error else Ok(0)
  {
    var front := segment + [':'] + more;
    FirstAt(segment, ':', more);
    if segment != "" {
      assert front[0] == segment[0];
      if forall k :: 1 <= k < |segment| ==> IsSchemeTail(front[k]) {
        assert forall k :: 1 <= k < |segment| ==> segment[k] == front[k];
      }
    }
  }

  lemma ColonStart(segment: string, more: string)
    requires segment != "" && ':' !in segment && '/' !in segment
    ensures PathStart(segment + [':'] + more, false) == Error
  {
    var rest := segment + [':'] + more;
    FirstAt(segment, ':', more);
    assert rest[0] == segment[0];
    IndexAfter(segment, ':', more, '/');
  }

  /** A relative path, with colons only after its first slash, is cut after its first character. */
  lemma RelativePath(segment: string, rest: string)
    requires segment != "" && IsHost(segment) && IsPath(segment) && ':' !in segment && IsPath(rest)
    ensures AddressOf(segment + "/" + rest) == Ok(Address(segment[..1], segment[1..] + "/" + rest))
  {
    hide PathSpan, AddressOf, SchemeLength, PathStart;
    var url := segment + "/" + rest;
    RelativeStart(segment, rest);
    SpanWithoutScheme(url);
    CutAtOnce(url);
    assert url[..1] == segment[..1] && url[1..] == segment[1..] + "/" + rest;
  }

  lemma RelativeStart(segment: string, rest: string)
    requires segment != "" && '/' !in segment && ':' !in segment
    ensures SchemeLength(segment + "/" + rest) == Ok(0) && PathStart(segment + "/" + rest, false) == Ok(0)
  {
    var url := segment + "/" + rest;
    assert url == segment + ['/'] + rest && url[0] == segment[0];
    FirstAt(segment, '/', rest);
    IndexAfter(segment, '/', rest, ':');
    assert url[|segment|] == '/' && !IsSchemeTail('/');
  }

  // ---------- Query and fragment ----------

  lemma SameScheme(url: string, query: string)
    requires '?' !in url
    ensures SchemeLength(url + ['?'] + query) == SchemeLength(url)
  {
    var whole := url + ['?'] + query;
    var i := IndexOf(url, ':');
    if i < |url| {
      assert whole[..i] == url[..i];
      IndexIs(whole, ':', i);
      assert forall k :: 0 <= k < i ==> whole[k] == url[k];
    } else {
      assert whole[|url|] == '?' && !IsSchemeTail('?') && !IsAlpha('?');
      assert url[..i] == url;
      IndexAfter(url, '?', query, ':');
    }
  }

  lemma SameBody(url: string, query: string)
    requires '?' !in url
    ensures BodySpan(url + ['?'] + query) == BodySpan(url)
  {
    hide SchemeLength, PathStart;
    var whole := url + ['?'] + query;
    SameScheme(url, query);
    SchemeBound(url);
    if SchemeLength(url).Ok? {
      var start := if SchemeLength(url).value > 0 then SchemeLength(url).value + 1 else 0;
      IndexOfAbsent(url[start..], '?');
      FirstAt(url[start..], '?', query);
      assert whole[start..] == url[start..] + ['?'] + query;
      assert whole[start..|url|] == url[start..] == url[start..|url|];
    }
  }

  /** The name depends on the span and what lies in it. */
  lemma SameName(url: string, whole: string)
    requires url <= whole && PathSpan(whole) == PathSpan(url)
    ensures GetProjectName(whole) == GetProjectName(url)
  {
    hide PathSpan, Unescape;
    if PathSpan(url).Ok? {
      SpanBound(url);
      var p := PathSpan(url).value;
      SliceOfPrefix(url, whole, p.start, p.end);
      assert RawPath(whole) == RawPath(url);
    }
  }

  lemma SliceOfPrefix(s: string, whole: string, i: nat, j: nat)
    requires s <= whole && i <= j <= |s|
    ensures whole[i..j] == s[i..j]
  {
    assert forall k :: 0 <= k < |s| ==> whole[k] == s[k];
  }

  lemma SpanBound(url: string)
    ensures PathSpan(url).Ok? ==> PathSpan(url).value.start <= PathSpan(url).value.end <= |url|
  {
  }

  /** A query does not change the project name. */
  lemma QueryKeepsName(url: string, query: string)
    requires Unended(url) && '#' !in query
    ensures GetProjectName(url + "?" + query) == GetProjectName(url)
  {
    hide BodySpan, GetProjectName;
    var whole := url + "?" + query;
    IndexOfAbsent(whole, '#');
    IndexOfAbsent(url, '#');
    assert whole[..|whole|] == whole && url[..|url|] == url;
    SameBody(url, query);
    SameName(url, whole);
  }

  /** Nor does a fragment, if it can be decoded; otherwise it is an error. */
  lemma FragmentKeepsName(url: string, fragment: string)
    requires '#' !in url
    ensures GetProjectName(url + "#" + fragment) == if Unescape(fragment).Some? then GetProjectName(url) else Error
  {
    hide BodySpan, Unescape, RawPath;
    var whole := url + "#" + fragment;
    assert whole == url + ['#'] + fragment;
    FirstAt(url, '#', fragment);
    IndexOfAbsent(url, '#');
    assert whole[|url| + 1..] == fragment && whole[..|url|] == url && url[..|url|] == url;
    if Unescape(fragment).Some? {
      SameName(url, whole);
    }
  }

  /** A suffix without the character `c` does not reach beyond the last `c`. */
  lemma SuffixAfter(front: string, c: char, back: string, name: string)
    requires c !in name
    ensures HasSuffix(front + [c] + back, name) <==> HasSuffix(back, name)
  {
    var whole := front + [c] + back;
    if |name| <= |back| {
      assert whole[|whole| - |name|..] == back[|back| - |name|..];
    } else if HasSuffix(whole, name) {
      SuffixReaches(front, c, back, name);
    }
  }

  /** A longer suffix reaches the character in front. */
  lemma SuffixReaches(front: string, c: char, back: string, name: string)
    requires |name| > |back| && HasSuffix(front + [c] + back, name)
    ensures c in name
  {
    var whole := front + [c] + back;
    assert whole[|whole| - |name|..][|name| - |back| - 1] == whole[|front|];
  }

  /** Both stay in the base URL, unless they happen to end with the project name, which is then cut off there. */
  lemma BaseKeepsTail(scheme: string, host: string, path: string, c: char, tail: string)
    requires IsScheme(scheme) && IsHost(host) && IsPath(path)
    requires (c == '?' && '#' !in tail) || (c == '#' && Unescape(tail).Some?)
    ensures var url := scheme + "://" + host + "/" + path;
      AddressOf(url + [c] + tail) == Ok(Address(if HasSuffix(tail, path) then url + [c] + tail[..|tail| - |path|] else url + [c] + tail, path))
  {
    hide GetProjectName, IsScheme, HasSuffix, Unescape, TrimSuffix;
    var url := scheme + "://" + host + "/" + path;
    WebUrlUnended(scheme, host, path);
    WebUrl(scheme, host, path);
    if c == '?' { QueryKeepsName(url, tail); } else { FragmentKeepsName(url, tail); }
    TrimAfter(url, c, tail, path);
  }

  lemma WebUrlUnended(scheme: string, host: string, path: string)
    requires IsScheme(scheme) && IsHost(host) && IsPath(path)
    ensures Unended(scheme + "://" + host + "/" + path)
  {
    SchemeIsFree(scheme);
  }

  lemma TrimAfter(front: string, c: char, tail: string, name: string)
    requires c !in name
    ensures TrimSuffix(front + [c] + tail, name)
         == if HasSuffix(tail, name) then front + [c] + tail[..|tail| - |name|] else front + [c] + tail
  {
    hide HasSuffix, TrimSuffix;
    SuffixAfter(front, c, tail, name);
    TrimTail(front + [c], tail, name);
  }

  lemma TrimTail(front: string, tail: string, name: string)
    requires HasSuffix(front + tail, name) <==> HasSuffix(tail, name)
    ensures TrimSuffix(front + tail, name) == if HasSuffix(tail, name) then front + tail[..|tail| - |name|] else front + tail
  {
    if HasSuffix(tail, name) {
      assert (front + tail)[..|front + tail| - |name|] == front + tail[..|tail| - |name|];
    }
  }

  // ---------- Escapes ----------

  const LOWER: string := "0123456789abcdef"
  const UPPER: string := "0123456789ABCDEF"

  /** The escape of a byte, in either case. */
  function Escape(c: char, digits: string): string
    requires c as int < 256 && |digits| == 16
  {
    "%" + [digits[c as int / 16]] + [digits[c as int % 16]]
  }

  lemma DigitValue(d: int, digits: string)
    requires 0 <= d < 16 && (digits == LOWER || digits == UPPER)
    ensures HexValue(digits[d]) == Some(d)
  {
  }

  lemma EscapeDecodes(c: char, digits: string, rest: string)
    requires c as int < 256 && (digits == LOWER || digits == UPPER)
    ensures Unescape(Escape(c, digits) + rest) == match Unescape(rest) case None => None case Some(t) => Some([c] + t)
  {
    var s := Escape(c, digits) + rest;
    DigitValue(c as int / 16, digits);
    DigitValue(c as int % 16, digits);
    assert s[1] == digits[c as int / 16] && s[2] == digits[c as int % 16] && s[3..] == rest;
    assert 16 * (c as int / 16) + c as int % 16 == c as int;
  }

  /** What precedes the first escape is copied. */
  lemma {:induction false} CopiedThrough(a: string, rest: string)
    requires '%' !in a
    ensures Unescape(a + rest) == match Unescape(rest) case None => None case Some(t) => Some(a + t)
  {
    if a == "" {
      assert a + rest == rest;
      if Unescape(rest).Some? { assert a + Unescape(rest).value == Unescape(rest).value; }
    } else {
      CopiedThrough(a[1..], rest);
      assert a + rest == [a[0]] + (a[1..] + rest);
      CopiedOne(a[0], a[1..] + rest);
      if Unescape(rest).Some? { Reattach(a, Unescape(rest).value); }
    }
  }

  lemma CopiedOne(c: char, s: string)
    requires c != '%'
    ensures Unescape([c] + s) == match Unescape(s) case None => None case Some(t) => Some([c] + t)
  {
    assert ([c] + s)[1..] == s;
  }

  /** A per cent sign that two hexadecimal digits do not follow makes the URL an error. */
  lemma BadEscape(a: string, rest: string)
    requires '%' !in a
    requires |rest| < 2 || rest[0] !in LOWER + UPPER || rest[1] !in LOWER + UPPER
    ensures Unescape(a + ("%" + rest)).None?
  {
    CopiedThrough(a, "%" + rest);
    if |rest| >= 2 {
      assert ("%" + rest)[1] == rest[0] && ("%" + rest)[2] == rest[1];
      HexIff(rest[0]);
      HexIff(rest[1]);
    }
  }

  lemma HexIff(c: char)
    ensures HexValue(c).Some? ==> c in LOWER + UPPER
  {
    if HexValue(c).Some? {
      var d := HexValue(c).value;
      assert c == LOWER[d] || c == UPPER[d];
      assert LOWER[d] in LOWER && UPPER[d] in UPPER;
    }
  }

  lemma PathOfWebUrl(scheme: string, host: string, path: string)
    requires IsScheme(scheme) && IsHost(host) && Unended(path)
    ensures UrlPath(scheme + "://" + host + "/" + path) == match Unescape("/" + path) case None => Error case Some(t) => Ok(t)
  {
    hide PathSpan, Unescape, IsScheme;
    var front, tail := scheme + "://" + host, "/" + path;
    assert front + tail == scheme + "://" + host + "/" + path;
    SpanAfterHost(scheme, host, tail);
    assert (front + tail)[|front|..|front + tail|] == tail;
  }

  lemma EscapeIsFree(c: char, digits: string)
    requires c as int < 256 && (digits == LOWER || digits == UPPER)
    ensures Unended(Escape(c, digits))
  {
    DigitValue(c as int / 16, digits);
    DigitValue(c as int % 16, digits);
  }

  lemma EscapeInPath(a: string, c: char, digits: string, b: string)
    requires '%' !in a && '%' !in b
    requires c as int < 256 && (digits == LOWER || digits == UPPER)
    ensures Unescape(a + (Escape(c, digits) + b)) == Some(a + ([c] + b))
  {
    hide Unescape, Escape;
    NoEscapeDecodes(b);
    EscapeDecodes(c, digits, b);
    CopiedThrough(a, Escape(c, digits) + b);
  }

  /** An escape in the path is decoded in the project name. */
  lemma EscapedPath(scheme: string, host: string, a: string, c: char, digits: string, b: string)
    requires IsScheme(scheme) && IsHost(host) && IsPath(a) && IsPath(b)
    requires c as int < 256 && (digits == LOWER || digits == UPPER)
    ensures GetProjectName(scheme + "://" + host + "/" + (a + (Escape(c, digits) + b))) == Ok(a + ([c] + b))
  {
    hide UrlPath, Unescape, Escape, IsScheme;
    var path := a + (Escape(c, digits) + b);
    EscapeIsFree(c, digits);
    EscapeInPath("/" + a, c, digits, b);
    assert ("/" + a) + (Escape(c, digits) + b) == "/" + path;
    PathOfWebUrl(scheme, host, path);
    assert (("/" + a) + ([c] + b))[1..] == a + ([c] + b);
  }

  /** A malformed escape is an error. */
  lemma MalformedPath(scheme: string, host: string, a: string, rest: string)
    requires IsScheme(scheme) && IsHost(host) && IsPath(a) && Unended(rest)
    requires |rest| < 2 || rest[0] !in LOWER + UPPER || rest[1] !in LOWER + UPPER
    ensures AddressOf(scheme + "://" + host + "/" + (a + ("%" + rest))) == Error
  {
    hide UrlPath, Unescape, IsScheme;
    BadEscape("/" + a, rest);
    assert ("/" + a) + ("%" + rest) == "/" + (a + ("%" + rest));
    PathOfWebUrl(scheme, host, a + ("%" + rest));
  }
}
