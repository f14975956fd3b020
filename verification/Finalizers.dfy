/** `addFinalizer` and `removeFinalizer`: a finalizer list is rewritten as the sorted list of a set. */
module Finalizers {
  import opened Strings

  /** `finalizerName`, which is `controllerAgentName`. */
  const OURS: string := "gitlab-source-controller"

  predicate StrictlySorted(s: seq<string>) {
    forall i, j :: 0 <= i < j < |s| ==> Less(s[i], s[j])
  }

  /** `Insert` followed by `List`, on a list that is already sorted. */
  function InsertSorted(x: string, s: seq<string>): seq<string> {
    if s == [] || Less(x, s[0]) then [x] + s
    else if x == s[0] then s
    else [s[0]] + InsertSorted(x, s[1..])
  }

  /** `sets.NewString(s...).List()`. */
  function Canonical(s: seq<string>): seq<string> {
    if s == [] then [] else InsertSorted(s[0], Canonical(s[1..]))
  }

  /** `Delete` on a set, seen through `List`. */
  function Without(x: string, s: seq<string>): seq<string> {
    if s == [] then []
    else if s[0] == x then Without(x, s[1..])
    else [s[0]] + Without(x, s[1..])
  }

  function Add(s: seq<string>): seq<string> { InsertSorted(OURS, Canonical(s)) }

  function Remove(s: seq<string>): seq<string> { Without(OURS, Canonical(s)) }

  lemma {:induction false} InsertSortedFacts(x: string, s: seq<string>)
    requires StrictlySorted(s)
    ensures StrictlySorted(InsertSorted(x, s))
    ensures forall y :: y in InsertSorted(x, s) <==> y == x || y in s
  {
    var r := InsertSorted(x, s);
    if s == [] {
    } else if Less(x, s[0]) {
      forall j | 0 <= j < |s| ensures Less(x, s[j]) {
        if j > 0 { LessTransitive(x, s[0], s[j]); }
      }
    } else if x != s[0] {
      InsertSortedFacts(x, s[1..]);
      LessTotal(x, s[0]);
      var t := InsertSorted(x, s[1..]);
      forall j | 0 <= j < |t| ensures Less(s[0], t[j]) {
        assert t[j] in t;
        if t[j] != x { var k :| 0 <= k < |s[1..]| && s[1..][k] == t[j]; assert s[k + 1] == t[j]; }
      }
      assert s == [s[0]] + s[1..];
    }
  }

  lemma {:induction false} CanonicalFacts(s: seq<string>)
    ensures StrictlySorted(Canonical(s))
    ensures forall y :: y in Canonical(s) <==> y in s
  {
    if s != [] {
      CanonicalFacts(s[1..]);
      InsertSortedFacts(s[0], Canonical(s[1..]));
      assert s == [s[0]] + s[1..];
    }
  }

  lemma {:induction false} WithoutFacts(x: string, s: seq<string>)
    requires StrictlySorted(s)
    ensures StrictlySorted(Without(x, s))
    ensures forall y :: y in Without(x, s) <==> y != x && y in s
  {
    if s != [] {
      WithoutFacts(x, s[1..]);
      assert s == [s[0]] + s[1..];
      var t := Without(x, s[1..]);
      forall j | 0 <= j < |t| ensures Less(s[0], t[j]) {
        assert t[j] in t && t[j] in s[1..];
        var k :| 0 <= k < |s[1..]| && s[1..][k] == t[j];
        assert s[k + 1] == t[j];
      }
    }
  }

  /** A strictly sorted list is determined by its members. */
  lemma {:induction false} SortedUnique(s: seq<string>, t: seq<string>)
    requires StrictlySorted(s) && StrictlySorted(t)
    requires forall y :: y in s <==> y in t
    ensures s == t
  {
    assert t == [] || t[0] in s;
    if s != [] {
      assert s[0] in t;
      assert t != [] && t[0] in s;
      var i :| 0 <= i < |t| && t[i] == s[0];
      var j :| 0 <= j < |s| && s[j] == t[0];
      if i > 0 && j > 0 {
        LessTransitive(s[0], t[0], s[0]);
        LessIrreflexive(s[0]);
      }
      assert s[0] == t[0];
      forall y ensures y in s[1..] <==> y in t[1..] {
        TailMembers(s, y);
        TailMembers(t, y);
      }
      SortedUnique(s[1..], t[1..]);
    }
  }

  lemma TailMembers(s: seq<string>, y: string)
    requires StrictlySorted(s) && s != []
    ensures y in s[1..] <==> y in s && y != s[0]
  {
    LessIrreflexive(s[0]);
    if y in s && y != s[0] {
      var k :| 0 <= k < |s| && s[k] == y;
      assert s[1..][k - 1] == y;
    }
    if y in s[1..] {
      var k :| 0 <= k < |s[1..]| && s[1..][k] == y;
      assert s[k + 1] == y && Less(s[0], s[k + 1]);
    }
  }

  /** Both operations keep every foreign finalizer, fix our own, and return canonical lists. */
  lemma AddRemoveMembers(s: seq<string>)
    ensures StrictlySorted(Add(s)) && StrictlySorted(Remove(s))
    ensures forall y :: y in Add(s) <==> y == OURS || y in s
    ensures forall y :: y in Remove(s) <==> y != OURS && y in s
  {
    CanonicalFacts(s);
    InsertSortedFacts(OURS, Canonical(s));
    WithoutFacts(OURS, Canonical(s));
  }

  lemma AddRemoveAlgebra(s: seq<string>)
    ensures Add(Add(s)) == Add(s) && Remove(Remove(s)) == Remove(s)
    ensures Remove(Add(s)) == Remove(s) && Add(Remove(s)) == Add(s)
  {
    AddRemoveMembers(s);
    AddRemoveMembers(Add(s));
    AddRemoveMembers(Remove(s));
    SortedUnique(Add(Add(s)), Add(s));
    SortedUnique(Remove(Remove(s)), Remove(s));
    SortedUnique(Remove(Add(s)), Remove(s));
    SortedUnique(Add(Remove(s)), Add(s));
  }

  /** The comparison before `update` asks for a write exactly when membership changes or the list was not canonical. */
  lemma WriteNeeded(s: seq<string>)
    ensures Add(s) != s <==> OURS !in s || !StrictlySorted(s)
    ensures Remove(s) != s <==> OURS in s || !StrictlySorted(s)
  {
    AddRemoveMembers(s);
    if OURS in s && StrictlySorted(s) { SortedUnique(Add(s), s); }
    if OURS !in s && StrictlySorted(s) { SortedUnique(Remove(s), s); }
  }
}
