/** The status part of a run is settled after one run: repeating it changes nothing, not even a transition time. */
module Settling {
  import opened Outcomes
  import opened Statuses
  import opened Sources
  import opened Protocol

  /** The condition of type `t` has exactly this content. */
  ghost predicate Holds(cs: seq<Condition>, t: ConditionType, s: Tri, reason: string, message: string) {
    Get(cs, t).Some? && Get(cs, t).value == Condition(t, s, reason, message, Get(cs, t).value.since)
  }

  lemma SetToHolds(cs: seq<Condition>, t: ConditionType, s: Tri, reason: string, message: string, now: int)
    requires Sorted(cs)
    ensures Holds(SetTo(cs, t, s, reason, message, now), t, s, reason, message)
    ensures Holds(cs, t, s, reason, message) <==> SetTo(cs, t, s, reason, message, now) == cs
    ensures Sorted(SetTo(cs, t, s, reason, message, now))
    ensures forall u :: u != t ==> Get(SetTo(cs, t, s, reason, message, now), u) == Get(cs, u)
  {
    SetFacts(cs, Condition(t, s, reason, message, now), now);
  }

  lemma MarkTrueHolds(cs: seq<Condition>, t: ConditionType, now: int)
    requires Sorted(cs) && t in DEPENDENTS
    ensures var r := MarkTrue(cs, t, now);
      && Sorted(r) && Holds(r, t, True, "", "")
      && (forall u :: u != t && u != Ready ==> Get(r, u) == Get(cs, u))
      && (if forall d :: d in DEPENDENTS ==> StatusOf(r, d) == Some(True) then Holds(r, Ready, True, "", "") else Get(r, Ready) == Get(cs, Ready))
    ensures Holds(cs, t, True, "", "") && ((forall d :: d in DEPENDENTS ==> StatusOf(cs, d) == Some(True)) ==> Holds(cs, Ready, True, "", ""))
      ==> MarkTrue(cs, t, now) == cs
  {
    DependentMembers();
    SetToHolds(cs, t, True, "", "", now);
    SetToHolds(SetTo(cs, t, True, "", "", now), Ready, True, "", "", now);
  }

  lemma MarkFalseHolds(cs: seq<Condition>, t: ConditionType, reason: string, message: string, now: int)
    requires Sorted(cs) && t in DEPENDENTS
    ensures var r := MarkFalse(cs, t, reason, message, now);
      && Sorted(r) && Holds(r, t, False, reason, message) && Holds(r, Ready, False, reason, message)
      && (forall u :: u != t && u != Ready ==> Get(r, u) == Get(cs, u))
    ensures Holds(cs, t, False, reason, message) && Holds(cs, Ready, False, reason, message)
      ==> MarkFalse(cs, t, reason, message, now) == cs
  {
    DependentMembers();
    SetToHolds(cs, t, False, reason, message, now);
    SetToHolds(SetTo(cs, t, False, reason, message, now), Ready, False, reason, message, now);
  }

  // ---------- What each operation does to each condition ----------

  /** The list after `MarkSink` with a URI. */
  ghost predicate SinkGiven(cs: seq<Condition>, r: seq<Condition>) {
    && Get(r, SecretsProvided) == Get(cs, SecretsProvided) && Holds(r, SinkProvided, True, "", "")
    && (if StatusOf(cs, SecretsProvided) == Some(True) then Holds(r, Ready, True, "", "") else Get(r, Ready) == Get(cs, Ready))
  }

  /** The list after `MarkSink` without one: a False secrets condition outweighs the unknown sink. */
  ghost predicate SinkEmptied(cs: seq<Condition>, r: seq<Condition>) {
    && Get(r, SecretsProvided) == Get(cs, SecretsProvided)
    && Holds(r, SinkProvided, Unknown, "SinkEmpty", "Sink has resolved to empty.")
    && (if StatusOf(cs, SecretsProvided) != Some(False) then Holds(r, Ready, Unknown, "SinkEmpty", "Sink has resolved to empty.")
        else if StatusOf(cs, Ready) == Some(False) then Get(r, Ready) == Get(cs, Ready)
        else Holds(r, Ready, False, "SinkEmpty", "Sink has resolved to empty."))
  }

  /** The three conditions after each operation, with reason and message. */
  ghost predicate After(op: Op, cs: seq<Condition>, r: seq<Condition>, now: int) {
    match op
    case InitializeConditions => forall t :: Get(r, t) == if Get(cs, t).Some? then Get(cs, t) else Some(Condition(t, Unknown, "", "", now))
    case MarkSecrets =>
      && Holds(r, SecretsProvided, True, "", "") && Get(r, SinkProvided) == Get(cs, SinkProvided)
      && (if StatusOf(cs, SinkProvided) == Some(True) then Holds(r, Ready, True, "", "") else Get(r, Ready) == Get(cs, Ready))
    case MarkNoSecrets(reason, message) =>
      && Holds(r, SecretsProvided, False, reason, message) && Holds(r, Ready, False, reason, message)
      && Get(r, SinkProvided) == Get(cs, SinkProvided)
    case MarkSink(uri) => if uri != "" then SinkGiven(cs, r) else SinkEmptied(cs, r)
    case MarkNoSink(reason, message) =>
      && Holds(r, SinkProvided, False, reason, message) && Holds(r, Ready, False, reason, message)
      && Get(r, SecretsProvided) == Get(cs, SecretsProvided)
  }

  lemma InitializeAfter(cs: seq<Condition>, now: int)
    requires Sorted(cs)
    ensures After(InitializeConditions, cs, Apply(Status(cs, "", ""), InitializeConditions, now).conditions, now)
  {
    var c1 := InitializeOne(cs, SecretsProvided, now);
    var c2 := InitializeOne(c1, SinkProvided, now);
    InitializedOne(cs, SecretsProvided, now);
    InitializedOne(c1, SinkProvided, now);
    InitializedOne(c2, Ready, now);
    var r := InitializeOne(c2, Ready, now);
    forall t ensures Get(r, t) == if Get(cs, t).Some? then Get(cs, t) else Some(Condition(t, Unknown, "", "", now)) {
      match t
      case Ready => assert Get(c2, t) == Get(c1, t) == Get(cs, t);
      case SecretsProvided => assert Get(r, t) == Get(c2, t) == Get(c1, t);
      case SinkProvided => assert Get(r, t) == Get(c2, t) && Get(c1, t) == Get(cs, t);
    }
  }

  lemma TrueAfter(cs: seq<Condition>, t: ConditionType, other: ConditionType, now: int)
    requires Sorted(cs) && other != t && other != Ready && t != Ready
    ensures var r := MarkTrue(cs, t, now);
      && Holds(r, t, True, "", "") && Get(r, other) == Get(cs, other)
      && (if StatusOf(cs, other) == Some(True) then Holds(r, Ready, True, "", "") else Get(r, Ready) == Get(cs, Ready))
  {
    DependentMembers();
    MarkTrueHolds(cs, t, now);
    var r := MarkTrue(cs, t, now);
    assert other in DEPENDENTS && StatusOf(r, other) == StatusOf(cs, other) && StatusOf(r, t) == Some(True);
  }

  lemma InitializedOne(cs: seq<Condition>, t: ConditionType, now: int)
    requires Sorted(cs)
    ensures var r := InitializeOne(cs, t, now);
      && Sorted(r) && (forall u :: u != t ==> Get(r, u) == Get(cs, u))
      && Get(r, t) == if Get(cs, t).Some? then Get(cs, t) else Some(Condition(t, Unknown, "", "", now))
  {
    SetFacts(cs, Condition(t, Unknown, "", "", now), now);
  }

  /** Whether a False dependent is left after the sink became unknown. */
  lemma FalseLeft(c1: seq<Condition>)
    requires StatusOf(c1, SinkProvided) == Some(Unknown)
    ensures (exists d | d in DEPENDENTS :: StatusOf(c1, d) == Some(False)) <==> StatusOf(c1, SecretsProvided) == Some(False)
  {
    DependentMembers();
    assert SecretsProvided in DEPENDENTS;
  }

  lemma EmptySinkAfter(cs: seq<Condition>, now: int)
    requires Sorted(cs)
    ensures SinkEmptied(cs, MarkUnknown(cs, SinkProvided, "SinkEmpty", "Sink has resolved to empty.", now))
  {
    hide SetTo, Holds, Sorted;
    var reason, message := "SinkEmpty", "Sink has resolved to empty.";
    var c1 := SetTo(cs, SinkProvided, Unknown, reason, message, now);
    SetToHolds(cs, SinkProvided, Unknown, reason, message, now);
    HoldsStatus(c1, SinkProvided, Unknown, reason, message);
    FalseLeft(c1);
    DependentMembers();
    SetToHolds(c1, Ready, False, reason, message, now);
    SetToHolds(c1, Ready, Unknown, reason, message, now);
    KeepsHold(c1, SetTo(c1, Ready, False, reason, message, now), SinkProvided, Unknown, reason, message);
    KeepsHold(c1, SetTo(c1, Ready, Unknown, reason, message, now), SinkProvided, Unknown, reason, message);
  }

  lemma HoldsStatus(cs: seq<Condition>, t: ConditionType, s: Tri, reason: string, message: string)
    requires Holds(cs, t, s, reason, message)
    ensures StatusOf(cs, t) == Some(s)
  {
  }

  lemma KeepsHold(cs: seq<Condition>, r: seq<Condition>, t: ConditionType, s: Tri, reason: string, message: string)
    requires Holds(cs, t, s, reason, message) && Get(r, t) == Get(cs, t)
    ensures Holds(r, t, s, reason, message)
  {
  }

  /** Every operation, on every sorted list: what it does to each condition, to the URI and to the hook ID. */
  lemma OpOutcome(s: Status, op: Op, now: int)
    requires Sorted(s.conditions)
    ensures var r := Apply(s, op, now);
      && After(op, s.conditions, r.conditions, now)
      && r.webhookIDKey == s.webhookIDKey && r.sinkURI == if op.MarkSink? then op.uri else s.sinkURI
  {
    hide SinkEmptied, MarkUnknown, MarkTrue, MarkFalse;
    DependentMembers();
    match op
    case InitializeConditions => InitializeAfter(s.conditions, now);
    case MarkSecrets => TrueAfter(s.conditions, SecretsProvided, SinkProvided, now);
    case MarkNoSecrets(reason, message) => MarkFalseHolds(s.conditions, SecretsProvided, reason, message, now);
    case MarkSink(uri) =>
      TrueAfter(s.conditions, SinkProvided, SecretsProvided, now);
      EmptySinkAfter(s.conditions, now);
    case MarkNoSink(reason, message) => MarkFalseHolds(s.conditions, SinkProvided, reason, message, now);
  }

  /** When no dependent is False, as after the secrets were found. */
  lemma MarkUnknownHolds(cs: seq<Condition>, reason: string, message: string, now: int)
    requires Sorted(cs) && StatusOf(cs, SecretsProvided) == Some(True)
    ensures var r := MarkUnknown(cs, SinkProvided, reason, message, now);
      && Sorted(r) && Holds(r, SinkProvided, Unknown, reason, message) && Holds(r, Ready, Unknown, reason, message)
      && Get(r, SecretsProvided) == Get(cs, SecretsProvided)
    ensures Holds(cs, SinkProvided, Unknown, reason, message) && Holds(cs, Ready, Unknown, reason, message)
      ==> MarkUnknown(cs, SinkProvided, reason, message, now) == cs
  {
    DependentMembers();
    var cs1 := SetTo(cs, SinkProvided, Unknown, reason, message, now);
    SetToHolds(cs, SinkProvided, Unknown, reason, message, now);
    SetToHolds(cs1, Ready, Unknown, reason, message, now);
  }

  /** The URI a run resolves for the sink: from the referenced object, from the spec, or none. */
  function Resolved(spec: Spec, o: Oracle): Option<string> {
    if spec.sink.Some? then (if o.sink.Found? then Some(o.sink.value) else None) else spec.uri
  }

  /** Both secrets are found, and the sink if there is one. */
  predicate Available(spec: Spec, o: Oracle) {
    && spec.accessToken.Some? && spec.secretToken.Some? && o.accessToken.Found? && o.secretToken.Found?
    && (spec.sink.Some? ==> o.sink.Found?)
  }

  /** The reason shared by the sink condition and Ready, by the resolved URI. */
  ghost predicate SettledFor(st: Status, uri: Option<string>) {
    && Sorted(st.conditions)
    && Holds(st.conditions, SecretsProvided, True, "", "")
    && (match uri
        case None => Holds(st.conditions, SinkProvided, False, "NotFound", NIL_ERROR) && Holds(st.conditions, Ready, False, "NotFound", NIL_ERROR)
        case Some("") => Holds(st.conditions, SinkProvided, Unknown, "SinkEmpty", "Sink has resolved to empty.")
                         && Holds(st.conditions, Ready, Unknown, "SinkEmpty", "Sink has resolved to empty.") && st.sinkURI == ""
        case Some(u) => Holds(st.conditions, SinkProvided, True, "", "") && Holds(st.conditions, Ready, True, "", "") && st.sinkURI == u)
  }

  lemma InitializeKeeps(cs: seq<Condition>, now: int)
    requires Sorted(cs)
    ensures var r := InitializeOne(InitializeOne(InitializeOne(cs, SecretsProvided, now), SinkProvided, now), Ready, now);
      && Sorted(r) && (forall u :: Get(cs, u).Some? ==> Get(r, u) == Get(cs, u)) && (forall u :: Get(r, u).Some?)
      && ((forall u :: Get(cs, u).Some?) ==> r == cs)
  {
    var c1 := InitializeOne(cs, SecretsProvided, now);
    var c2 := InitializeOne(c1, SinkProvided, now);
    InitializeFacts(cs, SecretsProvided, now);
    InitializeFacts(c1, SinkProvided, now);
    InitializeFacts(c2, Ready, now);
    forall u ensures Get(InitializeOne(c2, Ready, now), u).Some? {
      match u case Ready => case SecretsProvided => case SinkProvided =>
    }
  }

  /** After the secrets step everything is in place for the sink step. */
  lemma SecretsSettle(spec: Spec, st: Status, o: Oracle)
    requires Sorted(st.conditions) && Available(spec, o)
    ensures var a := SettleSecrets(spec, st, o);
      a.result.Success? && Sorted(a.status.conditions) && Holds(a.status.conditions, SecretsProvided, True, "", "")
    ensures SettledFor(st, Resolved(spec, o)) ==> SettleSecrets(spec, st, o).status == st
  {
    DependentMembers();
    InitializeKeeps(st.conditions, o.now);
    var s0 := Apply(st, InitializeConditions, o.now);
    MarkTrueHolds(s0.conditions, SecretsProvided, o.now);
    if SettledFor(st, Resolved(spec, o)) {
      AllPresent(st, Resolved(spec, o));
      assert s0 == st;
    }
  }

  lemma AllPresent(st: Status, uri: Option<string>)
    requires SettledFor(st, uri)
    ensures forall u :: Get(st.conditions, u).Some?
    ensures StatusOf(st.conditions, SinkProvided) == Some(True) <==> uri.Some? && uri.value != ""
    ensures StatusOf(st.conditions, SinkProvided) == Some(True) ==> Holds(st.conditions, Ready, True, "", "")
    ensures IsReady(st) <==> uri.Some? && uri.value != ""
  {
    forall u ensures Get(st.conditions, u).Some? {
      match u case Ready => case SecretsProvided => case SinkProvided =>
    }
  }

  /** The sink step on a status whose secrets are settled. */
  function SinkStep(st: Status, uri: Option<string>, now: int): Status {
    if uri.Some? then Apply(st, MarkSink(uri.value), now) else Apply(st, MarkNoSink("NotFound", NIL_ERROR), now)
  }

  lemma NoSinkSettles(st: Status, now: int)
    requires Sorted(st.conditions) && Holds(st.conditions, SecretsProvided, True, "", "")
    ensures SettledFor(SinkStep(st, None, now), None)
    ensures SettledFor(st, None) ==> SinkStep(st, None, now) == st
  {
    DependentMembers();
    MarkFalseHolds(st.conditions, SinkProvided, "NotFound", NIL_ERROR, now);
  }

  lemma EmptySinkSettles(st: Status, now: int)
    requires Sorted(st.conditions) && Holds(st.conditions, SecretsProvided, True, "", "")
    ensures SettledFor(SinkStep(st, Some(""), now), Some(""))
    ensures SettledFor(st, Some("")) ==> SinkStep(st, Some(""), now) == st
  {
    DependentMembers();
    MarkUnknownHolds(st.conditions, "SinkEmpty", "Sink has resolved to empty.", now);
  }

  lemma GivenSinkSettles(st: Status, u: string, now: int)
    requires Sorted(st.conditions) && Holds(st.conditions, SecretsProvided, True, "", "") && u != ""
    ensures SettledFor(SinkStep(st, Some(u), now), Some(u))
    ensures SettledFor(st, Some(u)) ==> SinkStep(st, Some(u), now) == st
  {
    DependentMembers();
    MarkTrueHolds(st.conditions, SinkProvided, now);
  }

  lemma SinkSettles(st: Status, uri: Option<string>, now: int)
    requires Sorted(st.conditions) && Holds(st.conditions, SecretsProvided, True, "", "")
    ensures SettledFor(SinkStep(st, uri, now), uri)
    ensures SettledFor(st, uri) ==> SinkStep(st, uri, now) == st
  {
    hide SinkStep, SettledFor, Holds;
    match uri
    case None => NoSinkSettles(st, now);
    case Some(u) =>
      if u == "" { EmptySinkSettles(st, now); } else { GivenSinkSettles(st, u, now); }
  }

  /**
   One run settles the status for the resolved URI; a status already settled is returned as it is, whatever the
   clock says.
   */
  lemma SettleOnce(spec: Spec, st: Status, o: Oracle)
    requires Sorted(st.conditions) && Available(spec, o)
    ensures var a := SettleStatus(spec, st, o);
      && a.result.Success? && SettledFor(a.status, Resolved(spec, o))
      && (a.status == st <==> SettledFor(st, Resolved(spec, o)))
  {
    SecretsSettle(spec, st, o);
    SinkSettles(SettleSecrets(spec, st, o).status, Resolved(spec, o), o.now);
  }

  /** No condition update touches the hook ID. */
  lemma SettleKeepsKey(spec: Spec, st: Status, o: Oracle)
    ensures SettleStatus(spec, st, o).status.webhookIDKey == st.webhookIDKey
  {
  }
}
