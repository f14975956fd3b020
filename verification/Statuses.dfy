/**
 The status of a GitLabSource and its readiness conditions: every condition operation as a function on
 status values, and what holds of all sequences of operations.
 */
module Statuses {
  import opened Outcomes
  import Strings

  datatype ConditionType = Ready | SecretsProvided | SinkProvided {
    /** Alphabetical order of the type names. */
    function Rank(): nat {
      match this case Ready => 0 case SecretsProvided => 1 case SinkProvided => 2
    }
  }

  datatype Tri = True | False | Unknown

  /** `since` is the last transition time. */
  datatype Condition = Condition(kind: ConditionType, status: Tri, reason: string, message: string, since: int)

  datatype Status = Status(conditions: seq<Condition>, webhookIDKey: string, sinkURI: string)

  const EMPTY_STATUS := Status([], "", "")

  /** The dependents of the living condition set, in declaration order. */
  const DEPENDENTS: seq<ConditionType> := [SecretsProvided, SinkProvided]

  // ---------- Condition lists ----------

  function Get(cs: seq<Condition>, t: ConditionType): Option<Condition> {
    if cs == [] then None
    else if cs[0].kind == t then Some(cs[0])
    else Get(cs[1..], t)
  }

  function StatusOf(cs: seq<Condition>, t: ConditionType): Option<Tri> {
    match Get(cs, t) case None => None case Some(c) => Some(c.status)
  }

  /** All conditions of a type other than `t`. */
  function Others(cs: seq<Condition>, t: ConditionType): seq<Condition> {
    if cs == [] then []
    else if cs[0].kind == t then Others(cs[1..], t)
    else [cs[0]] + Others(cs[1..], t)
  }

  function InsertByType(c: Condition, cs: seq<Condition>): seq<Condition> {
    if cs == [] || c.kind.Rank() <= cs[0].kind.Rank() then [c] + cs
    else [cs[0]] + InsertByType(c, cs[1..])
  }

  function SortByType(cs: seq<Condition>): seq<Condition> {
    if cs == [] then [] else InsertByType(cs[0], SortByType(cs[1..]))
  }

  /** True when some stored condition differs from `c` in its transition time only. */
  predicate Already(cs: seq<Condition>, c: Condition) {
    exists i :: 0 <= i < |cs| && cs[i] == c.(since := cs[i].since)
  }

  /** `SetCondition`: unchanged when only the transition time would move, otherwise replaced and sorted. */
  function Set(cs: seq<Condition>, c: Condition, now: int): seq<Condition> {
    if Already(cs, c) then cs
    else SortByType(Others(cs, c.kind) + [c.(since := now)])
  }

  function SetTo(cs: seq<Condition>, t: ConditionType, s: Tri, reason: string, message: string, now: int): seq<Condition> {
    Set(cs, Condition(t, s, reason, message, now), now)
  }

  // ---------- The condition manager ----------

  function MarkTrue(cs: seq<Condition>, t: ConditionType, now: int): seq<Condition> {
    var cs1 := SetTo(cs, t, True, "", "", now);
    if forall d | d in DEPENDENTS :: StatusOf(cs1, d) == Some(True)
    then SetTo(cs1, Ready, True, "", "", now)
    else cs1
  }

  function MarkUnknown(cs: seq<Condition>, t: ConditionType, reason: string, message: string, now: int): seq<Condition> {
    var cs1 := SetTo(cs, t, Unknown, reason, message, now);
    if exists d | d in DEPENDENTS :: StatusOf(cs1, d) == Some(False) then
      if StatusOf(cs1, Ready) == Some(False) then cs1 else SetTo(cs1, Ready, False, reason, message, now)
    else if t in DEPENDENTS then SetTo(cs1, Ready, Unknown, reason, message, now)
    else cs1
  }

  function MarkFalse(cs: seq<Condition>, t: ConditionType, reason: string, message: string, now: int): seq<Condition> {
    var cs1 := SetTo(cs, t, False, reason, message, now);
    if t in DEPENDENTS then SetTo(cs1, Ready, False, reason, message, now) else cs1
  }

  function InitializeOne(cs: seq<Condition>, t: ConditionType, now: int): seq<Condition> {
    if Get(cs, t).None? then SetTo(cs, t, Unknown, "", "", now) else cs
  }

  // ---------- The operations of GitLabSourceStatus ----------

  datatype Op =
    | InitializeConditions
    | MarkSecrets
    | MarkNoSecrets(reason: string, message: string)
    | MarkSink(uri: string)
    | MarkNoSink(reason: string, message: string)

  function Apply(s: Status, op: Op, now: int): Status {
    match op
    case InitializeConditions =>
      s.(conditions := InitializeOne(InitializeOne(InitializeOne(s.conditions, SecretsProvided, now), SinkProvided, now), Ready, now))
    case MarkSecrets => s.(conditions := MarkTrue(s.conditions, SecretsProvided, now))
    case MarkNoSecrets(reason, message) => s.(conditions := MarkFalse(s.conditions, SecretsProvided, reason, message, now))
    case MarkSink(uri) =>
      if uri != "" then s.(sinkURI := uri, conditions := MarkTrue(s.conditions, SinkProvided, now))
      else s.(sinkURI := uri, conditions := MarkUnknown(s.conditions, SinkProvided, "SinkEmpty", "Sink has resolved to empty.", now))
    case MarkNoSink(reason, message) => s.(conditions := MarkFalse(s.conditions, SinkProvided, reason, message, now))
  }

  predicate IsReady(s: Status) { StatusOf(s.conditions, Ready) == Some(True) }

  // ---------- Facts about condition lists ----------

  predicate Sorted(cs: seq<Condition>) {
    forall i, j :: 0 <= i < j < |cs| ==> cs[i].kind.Rank() < cs[j].kind.Rank()
  }

  /** The names of the condition types. */
  function TypeName(t: ConditionType): string {
    match t case Ready => "Ready" case SecretsProvided => "SecretsProvided" case SinkProvided => "SinkProvided"
  }

  /** The rank is the order of the names. */
  lemma RankIsAlphabetical(a: ConditionType, b: ConditionType)
    ensures a.Rank() < b.Rank() <==> Strings.Less(TypeName(a), TypeName(b))
  {
    hide Strings.Less, TypeName;
    if a == b {
      Strings.LessIrreflexive(TypeName(a));
    } else if a.Rank() < b.Rank() {
      NameOrder(a, b);
      NotBoth(TypeName(a), TypeName(b));
    } else {
      NameOrder(b, a);
      NotBoth(TypeName(b), TypeName(a));
    }
  }

  lemma NameOrder(a: ConditionType, b: ConditionType)
    requires a.Rank() < b.Rank()
    ensures exists k :: Strings.Decides(TypeName(a), TypeName(b), k)
  {
    if a == Ready {
      assert Strings.Decides(TypeName(a), TypeName(b), 0);
    } else {
      assert "SecretsProvided"[..1] == "S" == "SinkProvided"[..1];
      assert a == SecretsProvided && b == SinkProvided;
      assert Strings.Decides(TypeName(a), TypeName(b), 1);
    }
  }

  lemma NotBoth(a: string, b: string)
    requires exists k :: Strings.Decides(a, b, k)
    ensures Strings.Less(a, b) && !Strings.Less(b, a)
  {
    Strings.LessIff(a, b);
    if Strings.Less(b, a) {
      Strings.LessTransitive(a, b, a);
      Strings.LessIrreflexive(a);
    }
  }

  lemma RankInjective(a: ConditionType, b: ConditionType)
    ensures a.Rank() == b.Rank() <==> a == b
  {
  }

  lemma {:induction false} OthersMembers(cs: seq<Condition>, t: ConditionType)
    ensures forall c :: c in Others(cs, t) <==> c in cs && c.kind != t
  {
    if cs != [] {
      OthersMembers(cs[1..], t);
      assert cs == [cs[0]] + cs[1..];
    }
  }

  lemma {:induction false} OthersGet(cs: seq<Condition>, t: ConditionType)
    ensures forall u :: u != t ==> Get(Others(cs, t), u) == Get(cs, u)
  {
    if cs != [] {
      OthersGet(cs[1..], t);
      if cs[0].kind != t {
        assert Others(cs, t)[1..] == Others(cs[1..], t);
      }
    }
  }

  lemma {:induction false} OthersSorted(cs: seq<Condition>, t: ConditionType)
    requires Sorted(cs)
    ensures Sorted(Others(cs, t))
  {
    if cs != [] {
      OthersSorted(cs[1..], t);
      OthersMembers(cs[1..], t);
      var r := Others(cs[1..], t);
      forall j | 0 <= j < |r| ensures cs[0].kind.Rank() < r[j].kind.Rank() {
        assert r[j] in cs[1..];
      }
    }
  }

  lemma {:induction false} InsertFacts(c: Condition, cs: seq<Condition>)
    requires Sorted(cs) && (forall d :: d in cs ==> d.kind != c.kind)
    ensures Sorted(InsertByType(c, cs))
    ensures forall d :: d in InsertByType(c, cs) <==> d == c || d in cs
    ensures forall u :: Get(InsertByType(c, cs), u) == if u == c.kind then Some(c) else Get(cs, u)
  {
    var r := InsertByType(c, cs);
    if cs == [] {
    } else if c.kind.Rank() <= cs[0].kind.Rank() {
      assert cs[0] in cs;
      RankInjective(c.kind, cs[0].kind);
    } else {
      InsertFacts(c, cs[1..]);
      var t := InsertByType(c, cs[1..]);
      forall j | 0 <= j < |t| ensures cs[0].kind.Rank() < t[j].kind.Rank() {
        assert t[j] in t;
      }
      assert cs == [cs[0]] + cs[1..];
    }
  }

  lemma {:induction false} SortSortedAppend(cs: seq<Condition>, c: Condition)
    requires Sorted(cs) && (forall d :: d in cs ==> d.kind != c.kind)
    ensures SortByType(cs + [c]) == InsertByType(c, cs)
  {
    var all := cs + [c];
    if cs == [] {
      assert all[1..] == [];
      assert SortByType([]) == [];
    } else {
      assert all[1..] == cs[1..] + [c];
      SortSortedAppend(cs[1..], c);
      assert cs[0] in cs;
      RankInjective(c.kind, cs[0].kind);
      InsertFacts(c, cs[1..]);
      var r := InsertByType(c, cs[1..]);
      if c.kind.Rank() < cs[0].kind.Rank() {
        assert r == [c] + cs[1..];
        assert InsertByType(cs[0], r) == [c] + InsertByType(cs[0], cs[1..]);
        assert InsertByType(cs[0], cs[1..]) == [cs[0]] + cs[1..] == cs;
      } else {
        assert r[0] in r;
        assert InsertByType(cs[0], r) == [cs[0]] + r;
      }
    }
  }

  lemma {:induction false} GetMember(cs: seq<Condition>, i: int)
    requires Sorted(cs) && 0 <= i < |cs|
    ensures Get(cs, cs[i].kind) == Some(cs[i])
  {
    if i > 0 {
      RankInjective(cs[0].kind, cs[i].kind);
      GetMember(cs[1..], i - 1);
    }
  }

  /** After `SetCondition` the list is still sorted, `t` has the new content, and no other type changed. */
  lemma SetFacts(cs: seq<Condition>, c: Condition, now: int)
    requires Sorted(cs)
    ensures Sorted(Set(cs, c, now))
    ensures forall u :: u != c.kind ==> Get(Set(cs, c, now), u) == Get(cs, u)
    ensures Get(Set(cs, c, now), c.kind).Some?
    ensures Get(Set(cs, c, now), c.kind).value == c.(since := Get(Set(cs, c, now), c.kind).value.since)
    ensures Already(cs, c) <==> Get(cs, c.kind).Some? && Get(cs, c.kind).value == c.(since := Get(cs, c.kind).value.since)
    ensures Get(Set(cs, c, now), c.kind).value.since == if Already(cs, c) then Get(cs, c.kind).value.since else now
    ensures Already(Set(cs, c, now), c)
  {
    if Already(cs, c) {
      var i :| 0 <= i < |cs| && cs[i] == c.(since := cs[i].since);
      GetMember(cs, i);
    } else {
      OthersMembers(cs, c.kind);
      OthersGet(cs, c.kind);
      OthersSorted(cs, c.kind);
      var rest, new_ := Others(cs, c.kind), c.(since := now);
      SortSortedAppend(rest, new_);
      InsertFacts(new_, rest);
      GetIsMember(cs, c.kind);
      var r := Set(cs, c, now);
      assert new_ in r;
      var k :| 0 <= k < |r| && r[k] == new_;
    }
  }

  lemma {:induction false} GetIsMember(cs: seq<Condition>, t: ConditionType)
    ensures Get(cs, t).Some? ==> exists i :: 0 <= i < |cs| && cs[i] == Get(cs, t).value && cs[i].kind == t
  {
    if cs != [] && cs[0].kind != t {
      GetIsMember(cs[1..], t);
      if Get(cs, t).Some? {
        var i :| 0 <= i < |cs[1..]| && cs[1..][i] == Get(cs, t).value && cs[1..][i].kind == t;
        assert cs[i + 1] == Get(cs, t).value;
      }
    }
  }

  // ---------- Readiness over every history ----------

  /** What every operation keeps. The URI clause survives `MarkNoSink`, which leaves a stale URI behind. */
  ghost predicate Coherent(s: Status) {
    && Sorted(s.conditions)
    && (IsReady(s) <==> forall d :: d in DEPENDENTS ==> StatusOf(s.conditions, d) == Some(True))
    && (StatusOf(s.conditions, SinkProvided) == Some(True) ==> s.sinkURI != "")
    && ((exists d :: d in DEPENDENTS && StatusOf(s.conditions, d) == Some(False)) ==> StatusOf(s.conditions, Ready) == Some(False))
  }

  lemma SetToStatus(cs: seq<Condition>, t: ConditionType, s: Tri, reason: string, message: string, now: int)
    requires Sorted(cs)
    ensures Sorted(SetTo(cs, t, s, reason, message, now))
    ensures StatusOf(SetTo(cs, t, s, reason, message, now), t) == Some(s)
    ensures forall u :: u != t ==> StatusOf(SetTo(cs, t, s, reason, message, now), u) == StatusOf(cs, u)
    ensures forall u :: u != t ==> Get(SetTo(cs, t, s, reason, message, now), u) == Get(cs, u)
  {
    SetFacts(cs, Condition(t, s, reason, message, now), now);
  }

  lemma DependentMembers()
    ensures forall d :: d in DEPENDENTS <==> d == SecretsProvided || d == SinkProvided
  {
    assert DEPENDENTS[0] == SecretsProvided && DEPENDENTS[1] == SinkProvided;
  }

  lemma MarkTrueFacts(cs: seq<Condition>, t: ConditionType, now: int)
    requires Sorted(cs) && t in DEPENDENTS
    ensures var r := MarkTrue(cs, t, now);
      && Sorted(r) && StatusOf(r, t) == Some(True)
      && (forall u :: u != t && u != Ready ==> StatusOf(r, u) == StatusOf(cs, u))
      && StatusOf(r, Ready) == (if forall d :: d in DEPENDENTS ==> StatusOf(r, d) == Some(True) then Some(True) else StatusOf(cs, Ready))
  {
    DependentMembers();
    SetToStatus(cs, t, True, "", "", now);
    SetToStatus(SetTo(cs, t, True, "", "", now), Ready, True, "", "", now);
  }

  lemma MarkFalseFacts(cs: seq<Condition>, t: ConditionType, reason: string, message: string, now: int)
    requires Sorted(cs) && t in DEPENDENTS
    ensures var r := MarkFalse(cs, t, reason, message, now);
      && Sorted(r) && StatusOf(r, t) == Some(False) && StatusOf(r, Ready) == Some(False)
      && (forall u :: u != t && u != Ready ==> StatusOf(r, u) == StatusOf(cs, u))
  {
    DependentMembers();
    SetToStatus(cs, t, False, reason, message, now);
    SetToStatus(SetTo(cs, t, False, reason, message, now), Ready, False, reason, message, now);
  }

  lemma MarkUnknownFacts(cs: seq<Condition>, t: ConditionType, reason: string, message: string, now: int)
    requires Sorted(cs) && t in DEPENDENTS
    ensures var r := MarkUnknown(cs, t, reason, message, now);
      && Sorted(r) && StatusOf(r, t) == Some(Unknown)
      && (forall u :: u != t && u != Ready ==> StatusOf(r, u) == StatusOf(cs, u))
      && StatusOf(r, Ready) == Some(if exists d :: d in DEPENDENTS && StatusOf(r, d) == Some(False) then False else Unknown)
  {
    DependentMembers();
    var cs1 := SetTo(cs, t, Unknown, reason, message, now);
    SetToStatus(cs, t, Unknown, reason, message, now);
    SetToStatus(cs1, Ready, False, reason, message, now);
    SetToStatus(cs1, Ready, Unknown, reason, message, now);
  }

  lemma InitializeFacts(cs: seq<Condition>, t: ConditionType, now: int)
    requires Sorted(cs)
    ensures var r := InitializeOne(cs, t, now);
      && Sorted(r)
      && (forall u :: u != t ==> StatusOf(r, u) == StatusOf(cs, u) && Get(r, u) == Get(cs, u))
      && StatusOf(r, t) == (if StatusOf(cs, t).None? then Some(Unknown) else StatusOf(cs, t))
      && Get(r, t).Some?
  {
    SetToStatus(cs, t, Unknown, "", "", now);
  }

  lemma InitializeCoherent(s: Status, now: int)
    requires Coherent(s)
    ensures Coherent(Apply(s, InitializeConditions, now))
  {
    DependentMembers();
    var c1 := InitializeOne(s.conditions, SecretsProvided, now);
    InitializeFacts(s.conditions, SecretsProvided, now);
    InitializeFacts(c1, SinkProvided, now);
    InitializeFacts(InitializeOne(c1, SinkProvided, now), Ready, now);
  }

  lemma SinkCoherent(s: Status, uri: string, now: int)
    requires Coherent(s)
    ensures Coherent(Apply(s, MarkSink(uri), now))
  {
    DependentMembers();
    if uri != "" {
      MarkTrueFacts(s.conditions, SinkProvided, now);
    } else {
      MarkUnknownFacts(s.conditions, SinkProvided, "SinkEmpty", "Sink has resolved to empty.", now);
    }
  }

  lemma FalseCoherent(s: Status, d: ConditionType, reason: string, message: string, now: int)
    requires Coherent(s) && d in DEPENDENTS
    ensures Coherent(s.(conditions := MarkFalse(s.conditions, d, reason, message, now)))
  {
    DependentMembers();
    MarkFalseFacts(s.conditions, d, reason, message, now);
  }

  lemma SecretsCoherent(s: Status, now: int)
    requires Coherent(s)
    ensures Coherent(Apply(s, MarkSecrets, now))
  {
    DependentMembers();
    MarkTrueFacts(s.conditions, SecretsProvided, now);
  }

  lemma ApplyCoherent(s: Status, op: Op, now: int)
    requires Coherent(s)
    ensures Coherent(Apply(s, op, now))
    ensures Apply(s, op, now).webhookIDKey == s.webhookIDKey
  {
    hide Coherent, MarkTrue, MarkFalse, MarkUnknown, InitializeOne;
    DependentMembers();
    match op
    case InitializeConditions => InitializeCoherent(s, now);
    case MarkSecrets => SecretsCoherent(s, now);
    case MarkNoSecrets(reason, message) => FalseCoherent(s, SecretsProvided, reason, message, now);
    case MarkSink(uri) => SinkCoherent(s, uri, now);
    case MarkNoSink(reason, message) => FalseCoherent(s, SinkProvided, reason, message, now);
  }

  function ApplyAll(s: Status, ops: seq<(Op, int)>): Status
    decreases |ops|
  {
    if ops == [] then s else ApplyAll(Apply(s, ops[0].0, ops[0].1), ops[1..])
  }

  lemma {:induction false} HistoryCoherent(s: Status, ops: seq<(Op, int)>)
    requires Coherent(s)
    ensures Coherent(ApplyAll(s, ops))
    decreases |ops|
  {
    if ops != [] {
      ApplyCoherent(s, ops[0].0, ops[0].1);
      HistoryCoherent(Apply(s, ops[0].0, ops[0].1), ops[1..]);
    }
  }

  lemma EmptyCoherent()
    ensures Coherent(EMPTY_STATUS)
  {
    DependentMembers();
    assert StatusOf(EMPTY_STATUS.conditions, SecretsProvided) == None;
  }

  /** Over every sequence of operations from an empty status. */
  lemma ReadinessOverAllHistories(ops: seq<(Op, int)>)
    ensures var s := ApplyAll(EMPTY_STATUS, ops);
      && (IsReady(s) <==> StatusOf(s.conditions, SecretsProvided) == Some(True) && StatusOf(s.conditions, SinkProvided) == Some(True))
      && (StatusOf(s.conditions, SinkProvided) == Some(True) ==> s.sinkURI != "")
      && (StatusOf(s.conditions, SecretsProvided) == Some(False) || StatusOf(s.conditions, SinkProvided) == Some(False)
          ==> StatusOf(s.conditions, Ready) == Some(False))
  {
    DependentMembers();
    EmptyCoherent();
    HistoryCoherent(EMPTY_STATUS, ops);
  }

  /** Ready says False although no dependent does. */
  ghost predicate StaleFalse(s: Status) {
    StatusOf(s.conditions, Ready) == Some(False) && forall d :: d in DEPENDENTS ==> StatusOf(s.conditions, d) != Some(False)
  }

  /**
   The converse of the last clause fails, and exactly so: recovered secrets leave a False behind unless the
   sink decides.
   */
  lemma StaleAfterMarkSecrets(s: Status, now: int)
    requires Coherent(s)
    ensures StaleFalse(Apply(s, MarkSecrets, now)) <==>
      StatusOf(s.conditions, Ready) == Some(False) &&
      StatusOf(s.conditions, SinkProvided) != Some(True) && StatusOf(s.conditions, SinkProvided) != Some(False)
  {
    DependentMembers();
    MarkTrueFacts(s.conditions, SecretsProvided, now);
    var r := Apply(s, MarkSecrets, now);
    assert StatusOf(r.conditions, SinkProvided) == StatusOf(s.conditions, SinkProvided);
    assert StatusOf(r.conditions, SecretsProvided) == Some(True);
  }

  /** Two calls from an empty status reach it. */
  lemma StaleFalseIsReachable()
    ensures StaleFalse(ApplyAll(EMPTY_STATUS, [(MarkNoSecrets("r", "m"), 0), (MarkSecrets, 1)]))
  {
    DependentMembers();
    var ops: seq<(Op, int)> := [(MarkNoSecrets("r", "m"), 0), (MarkSecrets, 1)];
    var s1 := Apply(EMPTY_STATUS, MarkNoSecrets("r", "m"), 0);
    MarkFalseFacts(EMPTY_STATUS.conditions, SecretsProvided, "r", "m", 0);
    EmptyCoherent();
    ApplyCoherent(EMPTY_STATUS, MarkNoSecrets("r", "m"), 0);
    assert StatusOf(s1.conditions, SinkProvided) == None;
    StaleAfterMarkSecrets(s1, 1);
    ApplyTwo(EMPTY_STATUS, ops[0], ops[1]);
  }

  lemma ApplyTwo(s: Status, a: (Op, int), b: (Op, int))
    ensures ApplyAll(s, [a, b]) == Apply(Apply(s, a.0, a.1), b.0, b.1)
  {
    var ops := [a, b];
    assert ops[1..] == [b] && [b][1..] == [];
    assert ApplyAll(Apply(s, a.0, a.1), [b]) == Apply(Apply(s, a.0, a.1), b.0, b.1);
  }
}
