/** The receive adapter's rewriting of SSH clone URLs. */
module Adapter {
  import opened Strings

  const GIT_AT: string := "git@"
  const HTTPS: string := "https://"
  const DOT_GIT: string := ".git"

  /** What the passes of `RewriteUrl` compute. */
  function Rewritten(url: string): string {
    if GIT_AT <= url
    then ReplaceAll(ReplaceAll(ReplaceAll(url, ":", "/"), GIT_AT, HTTPS), DOT_GIT, "")
    else url
  }

  /** A host or a path without separators of its own. */
  ghost predicate Plain(s: string) { ':' !in s && !Contains(s, GIT_AT) }

  /** Slashes for colons. */
  function Slashed(s: string): string { seq(|s|, i requires 0 <= i < |s| => if s[i] == ':' then '/' else s[i]) }

  /** Without any ".git". */
  function Cut(s: string): string { ReplaceAll(s, DOT_GIT, "") }

  lemma CharSkips(a: string, b: string, c: char, new_: string)
    requires c !in a
    ensures ReplaceAll(a + b, [c], new_) == a + ReplaceAll(b, [c], new_)
  {
    forall i | 0 <= i < |a| ensures !OccursAt(a + b, [c], i) {
      OccursChar(a + b, [c], i, 0);
    }
    ReplaceAllSkips(a, b, [c], new_);
  }

  /** An occurrence in `a + [c] + b` of a word without `c` lies inside `a` or inside `b`. */
  lemma NotAcross(a: string, c: char, b: string, word: string)
    requires word != "" && c !in word
    requires !Contains(a, word) && !Contains(b, word)
    ensures !Contains(a + ([c] + b), word)
  {
    var s := a + ([c] + b);
    assert s[0..|a|] == a && s[|a| + 1..|s|] == b;
    forall i ensures !OccursAt(s, word, i) {
      OccursInPart(s, 0, |a|, word, i);
      OccursInPart(s, |a| + 1, |s|, word, i);
      if 0 <= i <= |a| < i + |word| <= |s| {
        OccursChar(s, word, i, |a| - i);
      }
    }
  }

  /** A word whose last character is not in `suffix` cannot reach into it. */
  lemma NotInSuffix(a: string, suffix: string, word: string)
    requires word != "" && word[|word| - 1] !in suffix && !Contains(a, word)
    ensures !Contains(a + suffix, word)
  {
    var s := a + suffix;
    assert s[0..|a|] == a;
    forall i ensures !OccursAt(s, word, i) {
      OccursInPart(s, 0, |a|, word, i);
      if 0 <= i && |a| < i + |word| <= |s| {
        OccursChar(s, word, i, |word| - 1);
        assert s[i + |word| - 1] == suffix[i + |word| - 1 - |a|];
      }
    }
  }

  // ---------- The first two passes ----------

  lemma {:induction false} ColonsReplaced(s: string)
    ensures ReplaceAll(s, ":", "/") == Slashed(s)
  {
    if s != "" {
      ColonsReplaced(s[1..]);
      assert Slashed(s) == [if s[0] == ':' then '/' else s[0]] + Slashed(s[1..]);
      assert ":" <= s <==> s[0] == ':';
    }
  }

  lemma SlashedSame(s: string)
    requires ':' !in s
    ensures Slashed(s) == s
  {
  }

  lemma SlashedAppends(a: string, b: string)
    ensures Slashed(a + b) == Slashed(a) + Slashed(b)
  {
  }

  /** Slashes cannot make up a "git@". */
  lemma NoNewGitAt(s: string)
    requires !Contains(s, GIT_AT)
    ensures !Contains(Slashed(s), GIT_AT)
  {
    var t := Slashed(s);
    forall i ensures !OccursAt(t, GIT_AT, i) {
      if OccursAt(t, GIT_AT, i) {
        forall k | 0 <= k < 4 ensures s[i..i + 4][k] == GIT_AT[k] { OccursChar(t, GIT_AT, i, k); }
        assert s[i..i + 4] == GIT_AT && OccursAt(s, GIT_AT, i);
      }
    }
  }

  /**
   What becomes of an SSH URL: a scheme in front, slashes for colons, a scheme for every further "git@", and
   every ".git" gone, also inside the host.
   */
  lemma RewrittenOf(rest: string)
    ensures Rewritten(GIT_AT + rest) == HTTPS + Cut(ReplaceAll(Slashed(rest), GIT_AT, HTTPS))
  {
    hide ReplaceAll, Cut, Slashed;
    var t := Slashed(rest);
    ColonsReplaced(GIT_AT + rest);
    SlashedAppends(GIT_AT, rest);
    SlashedSame(GIT_AT);
    ReplaceHere(GIT_AT, t, HTTPS);
    HttpsStays(ReplaceAll(t, GIT_AT, HTTPS));
  }

  lemma HttpsStays(t: string)
    ensures ReplaceAll(HTTPS + t, DOT_GIT, "") == HTTPS + Cut(t)
  {
    var s := HTTPS + t;
    forall i | 0 <= i < |HTTPS| ensures !OccursAt(s, DOT_GIT, i) {
      OccursChar(s, DOT_GIT, i, 0);
    }
    ReplaceAllSkips(HTTPS, t, DOT_GIT, "");
  }

  // ---------- The third pass ----------

  lemma CutStep(s: string)
    requires s != ""
    ensures DOT_GIT <= s ==> Cut(s) == Cut(s[4..])
    ensures !(DOT_GIT <= s) ==> Cut(s) == [s[0]] + Cut(s[1..])
  {
  }

  /** A slash is not in ".git", so what precedes and what follows it are cut by themselves. */
  lemma {:induction false} CutAroundSlash(a: string, b: string)
    ensures Cut(a + ['/'] + b) == Cut(a) + ['/'] + Cut(b)
    decreases |a|
  {
    hide Cut;
    var s := a + ['/'] + b;
    CutStep(s);
    if a == "" {
      assert s[1..] == b && Cut(a) == "" by { CutEmpty(); }
      assert [s[0]] + Cut(b) == Cut(a) + ['/'] + Cut(b);
    } else {
      CutStep(a);
      DotGitBefore(a, '/', b);
      if DOT_GIT <= a {
        assert s[4..] == a[4..] + ['/'] + b;
        CutAroundSlash(a[4..], b);
      } else {
        assert s[1..] == a[1..] + ['/'] + b;
        CutAroundSlash(a[1..], b);
        assert [a[0]] + (Cut(a[1..]) + ['/'] + Cut(b)) == [a[0]] + Cut(a[1..]) + ['/'] + Cut(b);
      }
    }
  }

  lemma CutEmpty()
    ensures Cut("") == ""
  {
  }

  lemma DotGitBefore(a: string, c: char, b: string)
    requires c !in DOT_GIT
    ensures DOT_GIT <= a + [c] + b <==> DOT_GIT <= a
  {
    var s := a + [c] + b;
    assert s[|a|] == c;
    assert DOT_GIT <= s ==> forall k :: 0 <= k < 4 ==> s[k] == DOT_GIT[k];
    assert forall k :: 0 <= k < 4 ==> DOT_GIT[k] != c;
    if |a| >= 4 { assert s[..4] == a[..4]; }
  }

  /** ".git" starts with its only dot, so it cannot overlap a following ".git". */
  lemma {:induction false} CutEnd(a: string)
    ensures Cut(a + DOT_GIT) == Cut(a)
    decreases |a|
  {
    hide Cut;
    var s := a + DOT_GIT;
    CutStep(s);
    if a == "" {
      assert s == DOT_GIT && s[4..] == "";
    } else {
      CutStep(a);
      assert s[|a|] == '.';
      assert DOT_GIT <= s ==> forall k :: 0 <= k < 4 ==> s[k] == DOT_GIT[k];
      assert forall k :: 0 < k < 4 ==> DOT_GIT[k] != '.';
      assert |a| >= 4 ==> s[..4] == a[..4];
      if DOT_GIT <= a {
        assert s[4..] == a[4..] + DOT_GIT;
        CutEnd(a[4..]);
      } else {
        assert s[1..] == a[1..] + DOT_GIT;
        CutEnd(a[1..]);
      }
    }
  }

  /** Nothing is cut exactly when there is nothing to cut. */
  lemma CutSameIff(a: string)
    ensures |Cut(a)| <= |a| && (|Cut(a)| == |a| <==> !Contains(a, DOT_GIT)) && (Cut(a) == a <==> !Contains(a, DOT_GIT))
  {
    CutLength(a);
    if !Contains(a, DOT_GIT) { ReplaceAllAbsent(a, DOT_GIT, ""); }
  }

  lemma {:induction false} CutLength(a: string)
    ensures |Cut(a)| <= |a| && (Contains(a, DOT_GIT) ==> |Cut(a)| < |a|)
    decreases |a|
  {
    hide Cut;
    if a == "" {
      CutEmpty();
    } else {
      CutStep(a);
      if DOT_GIT <= a {
        CutLength(a[4..]);
      } else {
        CutLength(a[1..]);
        if i :| OccursAt(a, DOT_GIT, i) {
          assert |a| >= 4 ==> a[0..4] == a[..4];
          OccursInTail(a, DOT_GIT, i - 1);
          assert OccursAt(a[1..], DOT_GIT, i - 1);
        }
      }
    }
  }

  // ---------- Both together ----------

  lemma NoGitAtInClone(host: string, path: string)
    requires Plain(host) && Plain(path)
    ensures !Contains(host + ([':'] + (path + DOT_GIT)), GIT_AT)
  {
    NotInSuffix(path, DOT_GIT, GIT_AT);
    NotAcross(host, ':', path + DOT_GIT, GIT_AT);
  }

  /** What an SSH clone URL becomes, with any ".git" inside. */
  lemma CloneUrl(host: string, path: string)
    requires Plain(host) && Plain(path)
    ensures Rewritten(GIT_AT + (host + (":" + (path + DOT_GIT)))) == HTTPS + (Cut(host) + ['/'] + Cut(path))
  {
    hide Rewritten, Cut, Slashed;
    var end := path + DOT_GIT;
    var rest := host + ([':'] + end);
    NoGitAtInClone(host, path);
    NoNewGitAt(rest);
    ReplaceAllAbsent(Slashed(rest), GIT_AT, HTTPS);
    RewrittenOf(rest);
    SlashedSame(host);
    SlashedSame(end);
    SlashedAppends(host, [':'] + end);
    SlashedAppends([':'], end);
    OneSlash();
    assert host + (['/'] + end) == host + ['/'] + end;
    CutAroundSlash(host, end);
    CutEnd(path);
  }

  lemma OneSlash()
    ensures Slashed([':']) == ['/']
  {
  }

  /** An SSH clone URL becomes the web URL of the same project if and only if host and path have no ".git" inside. */
  lemma SshBecomesHttps(host: string, path: string)
    requires Plain(host) && Plain(path)
    ensures Rewritten(GIT_AT + (host + (":" + (path + DOT_GIT)))) == HTTPS + (host + ['/'] + path)
      <==> !Contains(host, DOT_GIT) && !Contains(path, DOT_GIT)
  {
    hide Rewritten, Cut;
    CloneUrl(host, path);
    CutSameIff(host);
    CutSameIff(path);
    var got, wanted := HTTPS + (Cut(host) + ['/'] + Cut(path)), HTTPS + (host + ['/'] + path);
    if got == wanted {
      assert |got| == |wanted|;
    }
  }

  /** A host that holds ".git" loses it: `git@my.gitlab.com:a/b.git` is taken for a project of `mylab.com`. */
  lemma WrongHost()
    ensures Rewritten("git@my.gitlab.com:a/b.git") == "https://mylab.com/a/b"
  {
    hide Rewritten, Cut, Contains;
    var host, path := "my.gitlab.com", "a/b";
    Lacks(host, GIT_AT, 3);
    Lacks(path, GIT_AT, 3);
    CloneUrl(host, path);
    assert GIT_AT + (host + (":" + (path + DOT_GIT))) == "git@my.gitlab.com:a/b.git";
    WrongParts();
    assert HTTPS + ("mylab.com" + ['/'] + "a/b") == "https://mylab.com/a/b";
  }

  lemma WrongParts()
    ensures Cut("my.gitlab.com") == "mylab.com" && Cut("a/b") == "a/b"
  {
    hide Cut, Contains;
    CutHere("my", "lab.com");
    assert "my" + (DOT_GIT + "lab.com") == "my.gitlab.com" && "my" + "lab.com" == "mylab.com";
    Lacks("a/b", DOT_GIT, 1);
    Lacks("lab.com", DOT_GIT, 1);
    CutSameIff("a/b");
    CutSameIff("lab.com");
  }

  lemma Lacks(s: string, word: string, k: nat)
    requires k < |word| && word[k] !in s
    ensures !Contains(s, word)
  {
    forall i ensures !OccursAt(s, word, i) {
      if OccursAt(s, word, i) { OccursChar(s, word, i, k); }
    }
  }

  /** The first ".git" goes, and the rest is cut by itself. */
  lemma CutHere(a: string, b: string)
    requires '.' !in a
    ensures Cut(a + (DOT_GIT + b)) == a + Cut(b)
  {
    var s := a + (DOT_GIT + b);
    forall i | 0 <= i < |a| ensures !OccursAt(s, DOT_GIT, i) {
      OccursChar(s, DOT_GIT, i, 0);
    }
    ReplaceAllFirst(a, DOT_GIT, b, "");
    assert a + ("" + Cut(b)) == a + Cut(b);
  }

  /** Whatever follows it, a leading "git@" comes out as a leading "https://". */
  lemma RewrittenPrefix(url: string)
    requires GIT_AT <= url
    ensures HTTPS <= Rewritten(url)
  {
    var rest := url[4..];
    assert url == GIT_AT + rest;
    CharSkips(GIT_AT, rest, ':', "/");
    var rest1 := ReplaceAll(rest, ":", "/");
    ReplaceHere(GIT_AT, rest1, HTTPS);
    var two := HTTPS + ReplaceAll(rest1, GIT_AT, HTTPS);
    forall i | 0 <= i < |HTTPS| ensures !OccursAt(two, DOT_GIT, i) {
      OccursChar(two, DOT_GIT, i, 0);
    }
    ReplaceAllSkips(HTTPS, ReplaceAll(rest1, GIT_AT, HTTPS), DOT_GIT, "");
  }

  /** Rewriting is idempotent on every input. */
  lemma RewriteIdempotent(url: string)
    ensures Rewritten(Rewritten(url)) == Rewritten(url)
  {
    if GIT_AT <= url {
      RewrittenPrefix(url);
      assert Rewritten(url)[0] == HTTPS[0];
    }
  }

  /**
   The rewriting part of `sourceFromGitLabEvent`, one assignment per pass: an SSH URL comes out with a scheme,
   any other URL as it is, and rewriting the result again would change nothing.
   */
  method RewriteUrl(payloadUrl: string) returns (url: string)
    ensures url == Rewritten(payloadUrl)
    ensures GIT_AT <= payloadUrl ==> HTTPS <= url
    ensures !(GIT_AT <= payloadUrl) ==> url == payloadUrl
    ensures Rewritten(url) == url
  {
    url := payloadUrl;
    if url != "" {
      if GIT_AT <= url {
        url := ReplaceAll(url, ":", "/");
        url := ReplaceAll(url, GIT_AT, HTTPS);
        url := ReplaceAll(url, DOT_GIT, "");
        RewrittenPrefix(payloadUrl);
      }
    }
    RewriteIdempotent(payloadUrl);
  }
}
