/** The string operations of Go's `strings` package that the source uses, on `seq<char>`. */
module Strings {

  predicate HasSuffix(s: string, t: string) {
    |t| <= |s| && s[|s| - |t|..] == t
  }

  function TrimSuffix(s: string, t: string): string {
    if HasSuffix(s, t) then s[..|s| - |t|] else s
  }

  /** `strings.Replace(s, old, new, -1)` for a non-empty `old`: left to right, without overlaps. */
  function ReplaceAll(s: string, old_: string, new_: string): string
    requires old_ != ""
  {
    if |s| < |old_| then s
    else if old_ <= s then new_ + ReplaceAll(s[|old_|..], old_, new_)
    else [s[0]] + ReplaceAll(s[1..], old_, new_)
  }

  /** `strings.Contains(s, sub)`. */
  ghost predicate Contains(s: string, sub: string) {
    exists i :: OccursAt(s, sub, i)
  }

  predicate OccursAt(s: string, sub: string, i: int) {
    0 <= i <= |s| - |sub| && s[i..i + |sub|] == sub
  }

  lemma OccursChar(s: string, sub: string, i: int, k: int)
    requires 0 <= k < |sub| && 0 <= i && i + k < |s|
    ensures OccursAt(s, sub, i) ==> s[i + k] == sub[k]
  {
    if OccursAt(s, sub, i) {
      assert s[i..i + |sub|][k] == s[i + k];
    }
  }

  /** An occurrence that lies inside a part of `s` is an occurrence in that part. */
  lemma OccursInPart(s: string, lo: int, hi: int, sub: string, i: int)
    requires 0 <= lo <= hi <= |s|
    ensures OccursAt(s, sub, i) && lo <= i && i + |sub| <= hi ==> Contains(s[lo..hi], sub)
  {
    if OccursAt(s, sub, i) && lo <= i && i + |sub| <= hi {
      var part := s[lo..hi];
      forall k | 0 <= k < |sub| ensures part[i - lo..i - lo + |sub|][k] == sub[k] {
        OccursChar(s, sub, i, k);
      }
      assert part[i - lo..i - lo + |sub|] == sub;
      assert OccursAt(s[lo..hi], sub, i - lo);
    }
  }

  /** The first index of `c` in `s`, or `|s|`. */
  function IndexOf(s: string, c: char): (i: nat)
    ensures i <= |s|
    ensures c !in s[..i]
    ensures i < |s| ==> s[i] == c
  {
    if s == "" || s[0] == c then 0
    else
      var j := IndexOf(s[1..], c);
      assert s[..1 + j] == [s[0]] + s[1..][..j];
      1 + j
  }

  /** Byte-wise string order, as Go's `<` and `sort.Strings`. */
  predicate Less(a: string, b: string) {
    b != "" && (a == "" || a[0] < b[0] || (a[0] == b[0] && Less(a[1..], b[1..])))
  }

  /** The order is decided by the first character that differs; of two strings one of which starts the other, the shorter is less. */
  lemma {:induction false} LessIff(a: string, b: string)
    ensures Less(a, b) <==> exists k :: Decides(a, b, k)
  {
    if a != "" && b != "" && a[0] == b[0] {
      LessIff(a[1..], b[1..]);
      assert a == [a[0]] + a[1..] && b == [b[0]] + b[1..];
      if k :| Decides(a[1..], b[1..], k) {
        assert a[..k + 1] == [a[0]] + a[1..][..k] && b[..k + 1] == [b[0]] + b[1..][..k];
        assert Decides(a, b, k + 1);
      }
      if k :| Decides(a, b, k) {
        assert k > 0;
        assert a[1..][..k - 1] == a[..k][1..] && b[1..][..k - 1] == b[..k][1..];
        assert Decides(a[1..], b[1..], k - 1);
      }
    } else if Less(a, b) {
      assert Decides(a, b, 0);
    } else {
      forall k ensures !Decides(a, b, k) { NoDecision(a, b, k); }
    }
  }

  lemma NoDecision(a: string, b: string, k: int)
    requires !(a != "" && b != "" && a[0] == b[0]) && !Less(a, b)
    ensures !Decides(a, b, k)
  {
    if 0 < k <= |a| && k <= |b| { assert a[..k][0] == a[0] && b[..k][0] == b[0]; }
  }

  /** Up to `k` both agree; there `a` has ended or has the smaller character. */
  predicate Decides(a: string, b: string, k: int) {
    0 <= k <= |a| && k < |b| && a[..k] == b[..k] && (k == |a| || a[k] < b[k])
  }

  lemma {:induction false} LessTotal(a: string, b: string)
    ensures Less(a, b) || a == b || Less(b, a)
  {
    if a != "" && b != "" && a[0] == b[0] {
      LessTotal(a[1..], b[1..]);
      assert a == [a[0]] + a[1..] && b == [b[0]] + b[1..];
    }
  }

  lemma {:induction false} LessIrreflexive(a: string)
    ensures !Less(a, a)
  {
    if a != "" {
      LessIrreflexive(a[1..]);
    }
  }

  lemma {:induction false} LessTransitive(a: string, b: string, c: string)
    requires Less(a, b) && Less(b, c)
    ensures Less(a, c)
  {
    if a != "" && a[0] == b[0] && b[0] == c[0] {
      LessTransitive(a[1..], b[1..], c[1..]);
    }
  }

  lemma OccursInTail(s: string, sub: string, i: int)
    requires s != "" && 0 <= i
    ensures OccursAt(s[1..], sub, i) <==> OccursAt(s, sub, i + 1)
  {
    if i + 1 + |sub| <= |s| {
      assert s[1..][i..i + |sub|] == s[i + 1..i + 1 + |sub|];
    }
  }

  lemma {:induction false} ReplaceAllAbsent(s: string, old_: string, new_: string)
    requires old_ != "" && !Contains(s, old_)
    ensures ReplaceAll(s, old_, new_) == s
  {
    if |s| >= |old_| {
      assert !OccursAt(s, old_, 0);
      assert s[0..|old_|] == s[..|old_|];
      forall i ensures !OccursAt(s[1..], old_, i) {
        if 0 <= i { OccursInTail(s, old_, i); }
      }
      ReplaceAllAbsent(s[1..], old_, new_);
    }
  }

  /** No occurrence can start in `a` and be cut by what follows it: `a` is copied through. */
  lemma {:induction false} ReplaceAllSkips(a: string, b: string, old_: string, new_: string)
    requires old_ != ""
    requires forall i :: 0 <= i < |a| ==> !OccursAt(a + b, old_, i)
    ensures ReplaceAll(a + b, old_, new_) == a + ReplaceAll(b, old_, new_)
  {
    var s := a + b;
    if a == "" {
      assert s == b;
    } else {
      assert !OccursAt(s, old_, 0);
      assert |s| >= |old_| ==> s[0..|old_|] == s[..|old_|];
      assert s[1..] == a[1..] + b;
      forall i | 0 <= i < |a[1..]| ensures !OccursAt(a[1..] + b, old_, i) {
        OccursInTail(s, old_, i);
      }
      ReplaceAllSkips(a[1..], b, old_, new_);
      SkipOne(a, s, b, old_, new_);
    }
  }

  lemma SkipOne(a: string, s: string, b: string, old_: string, new_: string)
    requires old_ != "" && a != "" && s == a + b && !(old_ <= s)
    requires ReplaceAll(s[1..], old_, new_) == a[1..] + ReplaceAll(b, old_, new_)
    ensures ReplaceAll(s, old_, new_) == a + ReplaceAll(b, old_, new_)
  {
    var t := ReplaceAll(b, old_, new_);
    if |s| < |old_| {
      assert t == b;
    } else {
      assert ReplaceAll(s, old_, new_) == [a[0]] + (a[1..] + t);
      Reattach(a, t);
    }
  }

  lemma Reattach(a: string, t: string)
    requires a != ""
    ensures [a[0]] + (a[1..] + t) == a + t
  {
  }

  lemma ReplaceHere(word: string, rest: string, new_: string)
    requires word != ""
    ensures ReplaceAll(word + rest, word, new_) == new_ + ReplaceAll(rest, word, new_)
  {
    assert (word + rest)[|word|..] == rest && word <= word + rest;
  }

  /** The first occurrence is replaced, and what follows it is treated by itself. */
  lemma ReplaceAllFirst(a: string, old_: string, b: string, new_: string)
    requires old_ != "" && forall i :: 0 <= i < |a| ==> !OccursAt(a + (old_ + b), old_, i)
    ensures ReplaceAll(a + (old_ + b), old_, new_) == a + (new_ + ReplaceAll(b, old_, new_))
  {
    ReplaceAllSkips(a, old_ + b, old_, new_);
    ReplaceHere(old_, b, new_);
  }
}
