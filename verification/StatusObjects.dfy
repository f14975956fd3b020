/**
 `GitLabSourceStatus` as the object it is: fields that its methods update in place, with the loops of the
 condition manager. Every method computes the function of the same name on status values.
 */
module StatusObjects {
  import opened Outcomes
  import S = Statuses

  lemma {:induction false} OthersAppend(cs: seq<S.Condition>, c: S.Condition, t: S.ConditionType)
    ensures S.Others(cs + [c], t) == S.Others(cs, t) + if c.kind == t then [] else [c]
  {
    var all := cs + [c];
    if cs == [] {
      assert all[1..] == [];
      assert S.Others([], t) == [];
    } else {
      assert all[1..] == cs[1..] + [c];
      OthersAppend(cs[1..], c, t);
    }
  }

  lemma {:induction false} GetAppend(cs: seq<S.Condition>, c: S.Condition, t: S.ConditionType)
    ensures S.Get(cs + [c], t) == if S.Get(cs, t).Some? then S.Get(cs, t) else if c.kind == t then Some(c) else None
  {
    var all := cs + [c];
    if cs == [] {
      assert all[1..] == [];
      assert S.Get([], t) == None;
    } else {
      assert all[1..] == cs[1..] + [c];
      GetAppend(cs[1..], c, t);
    }
  }

  /** A slice is a reference to an array, or nil; no method writes into an array that is already a field. */
  class GitLabSourceStatus {
    var conditions: array?<S.Condition>
    var webhookIDKey: string
    var sinkURI: string

    constructor ()
      ensures Value() == S.EMPTY_STATUS && conditions == null
    {
      conditions, webhookIDKey, sinkURI := null, "", "";
    }

    function Conditions(): seq<S.Condition>
      reads this, conditions
    {
      if conditions == null then [] else conditions[..]
    }

    function Value(): S.Status
      reads this, conditions
    {
      S.Status(Conditions(), webhookIDKey, sinkURI)
    }

    // ---------- The condition manager ----------

    method GetCondition(t: S.ConditionType) returns (c: Option<S.Condition>)
      ensures c == S.Get(Conditions(), t)
    {
      ghost var all := Conditions();
      if conditions != null {
        for i := 0 to conditions.Length
          invariant S.Get(all[..i], t) == None
        {
          assert all[..i + 1] == all[..i] + [all[i]];
          GetAppend(all[..i], all[i], t);
          if conditions[i].kind == t {
            GetPrefix(all, i + 1, t);
            return Some(conditions[i]);
          }
        }
        assert all[..conditions.Length] == all;
      }
      return None;
    }

    /** Leaves everything alone when only the transition time would move. */
    method SetCondition(c: S.Condition, now: int)
      modifies this`conditions
      ensures Conditions() == S.Set(old(Conditions()), c, now)
      ensures conditions == old(conditions) || fresh(conditions)
    {
      ghost var all := Conditions();
      var kept: seq<S.Condition> := [];
      if conditions != null {
        for i := 0 to conditions.Length
          invariant conditions == old(conditions) && Conditions() == all
          invariant kept == S.Others(all[..i], c.kind)
          invariant forall j :: 0 <= j < i ==> all[j] != c.(since := all[j].since)
        {
          assert all[..i + 1] == all[..i] + [all[i]];
          OthersAppend(all[..i], all[i], c.kind);
          if conditions[i].kind != c.kind {
            kept := kept + [conditions[i]];
          } else if c.(since := conditions[i].since) == conditions[i] {
            return;
          }
        }
        assert all[..conditions.Length] == all;
      }
      var sorted := S.SortByType(kept + [c.(since := now)]);
      conditions := new S.Condition[|sorted|](i requires 0 <= i < |sorted| => sorted[i]);
      assert conditions[..] == sorted;
    }

    method MarkTrue(t: S.ConditionType, now: int)
      modifies this`conditions
      ensures Conditions() == S.MarkTrue(old(Conditions()), t, now)
      ensures conditions == old(conditions) || fresh(conditions)
    {
      hide S.Set, S.Get;
      SetCondition(S.Condition(t, S.True, "", "", now), now);
      for i := 0 to |S.DEPENDENTS|
        invariant Conditions() == S.SetTo(old(Conditions()), t, S.True, "", "", now)
        invariant conditions == old(conditions) || fresh(conditions)
        invariant forall j :: 0 <= j < i ==> S.StatusOf(Conditions(), S.DEPENDENTS[j]) == Some(S.True)
      {
        var c := GetCondition(S.DEPENDENTS[i]);
        if c.None? || c.value.status != S.True {
          assert S.DEPENDENTS[i] in S.DEPENDENTS;
          return;
        }
      }
      SetCondition(S.Condition(S.Ready, S.True, "", "", now), now);
    }

    /** A dependent condition is False, so Ready must be. */
    method FailReady(reason: string, message: string, now: int)
      modifies this`conditions
      ensures Conditions() == (if S.StatusOf(old(Conditions()), S.Ready) == Some(S.False) then old(Conditions())
                               else S.SetTo(old(Conditions()), S.Ready, S.False, reason, message, now))
      ensures conditions == old(conditions) || fresh(conditions)
    {
      hide S.Set, S.Get;
      var happy := GetCondition(S.Ready);
      if happy.None? || happy.value.status != S.False {
        S.DependentMembers();
        MarkFalse(S.Ready, reason, message, now);
      }
    }

    method MarkUnknown(t: S.ConditionType, reason: string, message: string, now: int)
      modifies this`conditions
      ensures Conditions() == S.MarkUnknown(old(Conditions()), t, reason, message, now)
      ensures conditions == old(conditions) || fresh(conditions)
    {
      hide S.Set, S.Get;
      SetCondition(S.Condition(t, S.Unknown, reason, message, now), now);
      var isDependent := false;
      for i := 0 to |S.DEPENDENTS|
        invariant Conditions() == S.SetTo(old(Conditions()), t, S.Unknown, reason, message, now)
        invariant conditions == old(conditions) || fresh(conditions)
        invariant isDependent <==> t in S.DEPENDENTS[..i]
        invariant forall j :: 0 <= j < i ==> S.StatusOf(Conditions(), S.DEPENDENTS[j]) != Some(S.False)
      {
        var c := GetCondition(S.DEPENDENTS[i]);
        if c.Some? && c.value.status == S.False {
          assert S.DEPENDENTS[i] in S.DEPENDENTS;
          FailReady(reason, message, now);
          return;
        }
        assert S.DEPENDENTS[..i + 1] == S.DEPENDENTS[..i] + [S.DEPENDENTS[i]];
        if S.DEPENDENTS[i] == t { isDependent := true; }
      }
      assert S.DEPENDENTS[..|S.DEPENDENTS|] == S.DEPENDENTS;
      if isDependent {
        SetCondition(S.Condition(S.Ready, S.Unknown, reason, message, now), now);
      }
    }

    method MarkFalse(t: S.ConditionType, reason: string, message: string, now: int)
      modifies this`conditions
      ensures Conditions() == S.MarkFalse(old(Conditions()), t, reason, message, now)
      ensures conditions == old(conditions) || fresh(conditions)
    {
      hide S.Set, S.Get;
      S.DependentMembers();
      var types := [t];
      for i := 0 to |S.DEPENDENTS|
        invariant types == if t in S.DEPENDENTS[..i] then [t, S.Ready] else [t]
      {
        assert S.DEPENDENTS[..i + 1] == S.DEPENDENTS[..i] + [S.DEPENDENTS[i]];
        assert t in S.DEPENDENTS[..i] ==> S.DEPENDENTS[i] != t by {
          assert S.DEPENDENTS[0] == S.SecretsProvided && S.DEPENDENTS[1] == S.SinkProvided;
        }
        if S.DEPENDENTS[i] == t { types := types + [S.Ready]; }
      }
      assert S.DEPENDENTS[..|S.DEPENDENTS|] == S.DEPENDENTS;
      SetCondition(S.Condition(types[0], S.False, reason, message, now), now);
      if |types| == 2 {
        SetCondition(S.Condition(types[1], S.False, reason, message, now), now);
      }
    }

    method InitializeCondition(t: S.ConditionType, now: int)
      modifies this`conditions
      ensures Conditions() == S.InitializeOne(old(Conditions()), t, now)
      ensures conditions == old(conditions) || fresh(conditions)
    {
      var c := GetCondition(t);
      if c.None? {
        SetCondition(S.Condition(t, S.Unknown, "", "", now), now);
      }
    }

    // ---------- The operations of gitlab_types.go ----------

    method IsReady() returns (ready: bool)
      ensures ready == S.IsReady(Value())
    {
      var c := GetCondition(S.Ready);
      ready := c.Some? && c.value.status == S.True;
    }

    method InitializeConditions(now: int)
      modifies this`conditions
      ensures Value() == S.Apply(old(Value()), S.InitializeConditions, now)
      ensures conditions == old(conditions) || fresh(conditions)
    {
      assert S.DEPENDENTS[0] == S.SecretsProvided && S.DEPENDENTS[1] == S.SinkProvided;
      InitializeCondition(S.DEPENDENTS[0], now);
      InitializeCondition(S.DEPENDENTS[1], now);
      InitializeCondition(S.Ready, now);
    }

    method MarkSecrets(now: int)
      modifies this`conditions
      ensures Value() == S.Apply(old(Value()), S.MarkSecrets, now)
      ensures conditions == old(conditions) || fresh(conditions)
    {
      MarkTrue(S.SecretsProvided, now);
    }

    method MarkNoSecrets(reason: string, message: string, now: int)
      modifies this`conditions
      ensures Value() == S.Apply(old(Value()), S.MarkNoSecrets(reason, message), now)
      ensures conditions == old(conditions) || fresh(conditions)
    {
      MarkFalse(S.SecretsProvided, reason, message, now);
    }

    method MarkSink(uri: string, now: int)
      modifies this`conditions, this`sinkURI
      ensures Value() == S.Apply(old(Value()), S.MarkSink(uri), now)
      ensures conditions == old(conditions) || fresh(conditions)
    {
      sinkURI := uri;
      if |uri| > 0 {
        MarkTrue(S.SinkProvided, now);
      } else {
        MarkUnknown(S.SinkProvided, "SinkEmpty", "Sink has resolved to empty.", now);
      }
    }

    method MarkNoSink(reason: string, message: string, now: int)
      modifies this`conditions
      ensures Value() == S.Apply(old(Value()), S.MarkNoSink(reason, message), now)
      ensures conditions == old(conditions) || fresh(conditions)
    {
      MarkFalse(S.SinkProvided, reason, message, now);
    }

    /** `out` gets its own array of conditions. */
    method DeepCopyInto(out: GitLabSourceStatus)
      requires out != this
      modifies out
      ensures out.Value() == Value()
      ensures if conditions == null then out.conditions == null else out.conditions != null && fresh(out.conditions)
    {
      out.conditions, out.webhookIDKey, out.sinkURI := conditions, webhookIDKey, sinkURI;
      if conditions != null {
        out.conditions := CopyConditions(conditions);
      }
    }
  }

  method CopyConditions(a: array<S.Condition>) returns (b: array<S.Condition>)
    ensures fresh(b) && b[..] == a[..]
  {
    b := new S.Condition[a.Length];
    for i := 0 to a.Length
      invariant b[..i] == a[..i]
    {
      b[i] := a[i];
    }
    assert b[..] == a[..];
  }

  lemma {:induction false} GetPrefix(cs: seq<S.Condition>, n: nat, t: S.ConditionType)
    requires n <= |cs| && S.Get(cs[..n], t).Some?
    ensures S.Get(cs, t) == S.Get(cs[..n], t)
  {
    if n > 0 && cs[0].kind != t {
      assert cs[..n][1..] == cs[1..][..n - 1];
      GetPrefix(cs[1..], n - 1, t);
    }
  }
}
