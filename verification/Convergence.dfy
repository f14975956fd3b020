/**
 Convergence: in a stable environment every round, a run followed by a cache refresh, strictly
 decreases a rank until nothing is missing, even when the finalizer write conflicts with the
 status write of the same run; then runs write nothing.
 */
module Convergence {
  import opened Outcomes
  import opened Numerals
  import opened Statuses
  import opened Settling
  import opened Sources
  import opened ProjectUrls
  import opened Hooks
  import opened Resources
  import opened Protocol
  import opened Invariants
  import opened Accounting
  import F = Finalizers

  // ---------- The stable environment ----------

  /** The cache holds the server's object. */
  ghost predicate Fresh(st: Store) {
    StoreOK(st) && st.seen == |st.log| - 1 && st.cache == Server(st)
  }

  predicate DeliversOnly(es: seq<Event>) {
    forall i :: 0 <= i < |es| ==> es[i].Deliver?
  }

  /** No failures; between the two writes the watch may deliver, or not. */
  predicate Calm(o: Oracle) {
    && o.gaps.list == [] && o.gaps.deployment == [] && o.gaps.service == [] && o.gaps.services == [] && o.gaps.hook == []
    && o.gaps.status == [] && o.gaps.statusCall == [] && o.gaps.updateCall == [] && DeliversOnly(o.gaps.update)
    && !o.listerFails && !o.listDeploymentsFails && o.createDeployment.Done? && o.createService.Done? && !o.listServicesFails
    && o.addHook.Done? && o.updateStatus.Done? && o.update.Done?
  }

  /**
   Secrets and sink resolve to the same `uri` as always, the project URL parses, and a service with an address
   is there once the receiver is.
   */
  predicate Stable(w: World, s: Source, uri: Option<string>, o: Oracle) {
    && Calm(o) && Available(s.spec, o) && Resolved(s.spec, o) == uri
    && AddressOf(s.spec.projectURL).Ok?
    && o.hookId !in w.gitlab.issued && IsInt64(o.hookId)
    && (HasReceiver(w.kube.deployments, s) ==>
          var svc := ChooseService(w.kube.services, s);
          svc.Some? && svc.value.ingress != [] && svc.value.nodePorts != [])
  }

  ghost predicate LiveFresh(w: World) {
    && Fresh(w.store) && Server(w.store).Some?
    && !Server(w.store).value.deleting && Sorted(Server(w.store).value.status.conditions)
  }

  /** What is still missing: the receiver, a settled status, the hook, the finalizer in canonical form. */
  ghost function Rank(w: World, uri: Option<string>): nat
    requires Server(w.store).Some?
  {
    var s := Server(w.store).value;
    One(!HasReceiver(w.kube.deployments, s)) + One(!SettledFor(s.status, uri)) + One(KeyOf(s) == "") + One(F.Add(s.finalizers) != s.finalizers)
  }

  /** The informer catches up. */
  function Latest(st: Store): Store {
    if st.log != [] && st.seen < |st.log| - 1 then st.(seen := |st.log| - 1, cache := Server(st)) else st
  }

  function Round(w: World, o: Oracle): World {
    var w1 := Reconcile(w, o).0;
    w1.(store := Latest(w1.store))
  }

  /** Catching up is what the watch event for the last version does. */
  lemma LatestIsDelivery(w: World)
    requires w.store.log != []
    ensures w.(store := Latest(w.store)) == EnvStep(w, Deliver(|w.store.log| - 1))
  {
  }

  // ---------- Delivery between the writes ----------

  lemma {:induction false} DeliveredNothing(w: World, es: seq<Event>)
    requires DeliversOnly(es) && w.store.seen == |w.store.log| - 1
    ensures EnvSteps(w, es) == w
    decreases |es|
  {
    if es != [] {
      assert EnvStep(w, es[0]) == w;
      DeliveredNothing(w, es[1..]);
    }
  }

  lemma {:induction false} DeliveredOne(w: World, es: seq<Event>)
    requires DeliversOnly(es) && w.store.seen == |w.store.log| - 2 && w.store.seen >= 0
    ensures EnvSteps(w, es) == w || EnvSteps(w, es) == w.(store := Latest(w.store))
    decreases |es|
  {
    if es != [] {
      var w1 := EnvStep(w, es[0]);
      if w1 == w {
        DeliveredOne(w, es[1..]);
      } else {
        assert w1 == w.(store := Latest(w.store));
        DeliveredNothing(w1, es[1..]);
      }
    }
  }

  // ---------- The writes of a stable run ----------

  /** The store after `s` was replaced by `t`, which the informer has not seen yet. */
  ghost predicate Ahead(st0: Store, st: Store, t: Source) {
    && |st.log| > |st0.log| && st0.log <= st.log
    && st.seen < |st.log|
    && (forall i :: 0 <= i < |st.log| && st.log[i].Some? ==> st.log[i].value.rv == i)
    && Server(st) == Some(t)
    && (st.seen == |st.log| - 1 ==> st.cache == Some(t))
  }

  lemma AheadLatest(st0: Store, st: Store, t: Source)
    requires Ahead(st0, st, t)
    ensures Fresh(Latest(st)) && Server(Latest(st)) == Some(t)
  {
  }

  /** `t` is `s` with the status and finalizers given, at a later version. */
  ghost predicate Revised(s: Source, t: Source, st: Status, finalizers: seq<string>) {
    t == s.(rv := t.rv, status := st, finalizers := finalizers)
  }

  lemma StatusWrite(w: World, s: Source, src: Source, o: Oracle) returns (t: Source)
    requires Fresh(w.store) && w.store.cache == Some(s) && Calm(o) && src.status != s.status
    ensures var r := WriteStatus(w, s, src, o);
      && r.1 && r.0 == w.(store := r.0.store)
      && r.0.store.log == w.store.log + [Some(t)] && r.0.store.seen == w.store.seen
      && r.0.store.cache == Some(s.(status := src.status))
    ensures t == s.(status := src.status, rv := |w.store.log|)
  {
    t := s.(status := src.status, rv := |w.store.log|);
    assert EnvSteps(w, []) == w;
    var p1 := s.(status := src.status);
    var w1 := w.(store := w.store.(cache := Some(p1)));
    assert EnvSteps(w1, []) == w1;
    assert Server(w1.store) == Some(s) && s.rv == |w.store.log| - 1;
  }

  /** The finalizer write on the current version. */
  lemma FinalizerWrite(w: World, s: Source, src: Source, o: Oracle) returns (t: Source)
    requires Fresh(w.store) && w.store.cache == Some(s) && Calm(o) && src.finalizers != s.finalizers && !s.deleting
    ensures var r := Update(w, src, o);
      r.1 && r.0 == w.(store := r.0.store) && Ahead(w.store, r.0.store, t)
    ensures Revised(s, t, s.status, src.finalizers)
  {
    t := s.(finalizers := src.finalizers, rv := |w.store.log|);
    var p1 := s.(finalizers := src.finalizers);
    var w1 := w.(store := w.store.(cache := Some(p1)));
    assert EnvSteps(w1, []) == w1;
    assert Server(w1.store) == Some(s) && s.rv == |w.store.log| - 1;
  }

  /** The finalizer write on a version the status write has already replaced: a conflict. */
  lemma FinalizerConflict(w: World, src: Source, o: Oracle)
    requires w.store.cache.Some? && Server(w.store).Some? && w.store.cache.value.rv != Server(w.store).value.rv
    requires Calm(o) && w.store.cache.value.finalizers != src.finalizers
    ensures var r := Update(w, src, o);
      !r.1 && r.0 == w.(store := w.store.(cache := Some(w.store.cache.value.(finalizers := src.finalizers))))
  {
    var p1 := w.store.cache.value.(finalizers := src.finalizers);
    assert EnvSteps(w.(store := w.store.(cache := Some(p1))), []) == w.(store := w.store.(cache := Some(p1)));
  }

  /** Both writes of a stable run: the status always lands; the finalizers land unless they conflict with the status. */
  lemma StableWriteBack(w: World, s: Source, src: Source, o: Oracle) returns (t: Source, finalizers: seq<string>)
    requires Fresh(w.store) && w.store.cache == Some(s) && Calm(o) && !s.deleting
    requires src.status != s.status || src.finalizers != s.finalizers
    ensures var r := WriteBack(w, s, src, Success, o);
      r.0 == w.(store := r.0.store) && Ahead(w.store, r.0.store, t) && !r.1.Panicked?
    ensures Revised(s, t, src.status, finalizers)
    ensures finalizers == src.finalizers || (src.status != s.status && finalizers == s.finalizers)
  {
    if src.status == s.status {
      assert EnvSteps(w, []) == w;
      DeliveredNothing(w, o.gaps.update);
      t := FinalizerWrite(w, s, src, o);
      finalizers := src.finalizers;
    } else {
      t := StatusWrite(w, s, src, o);
      var w1 := WriteStatus(w, s, src, o).0;
      DeliveredOne(w1, o.gaps.update);
      var w2 := EnvSteps(w1, o.gaps.update);
      finalizers := s.finalizers;
      if s.finalizers != src.finalizers {
        if w2 == w1 {
          FinalizerConflict(w1, src, o);
        } else {
          t, finalizers := DeliveredWrite(w, w1, w2, s, t, src, o);
        }
      }
    }
  }

  lemma DeliveredWrite(w: World, w1: World, w2: World, s: Source, t0: Source, src: Source, o: Oracle)
    returns (t: Source, finalizers: seq<string>)
    requires Fresh(w.store) && w.store.cache == Some(s) && Calm(o) && !s.deleting && src.finalizers != s.finalizers
    requires w1 == w.(store := w1.store) && w1.store.log == w.store.log + [Some(t0)] && w1.store.seen == w.store.seen
    requires t0 == s.(status := src.status, rv := |w.store.log|)
    requires w2 == w1.(store := Latest(w1.store))
    ensures var r := Update(w2, src, o);
      r.1 && r.0 == w.(store := r.0.store) && Ahead(w.store, r.0.store, t)
    ensures Revised(s, t, src.status, src.finalizers) && finalizers == src.finalizers
  {
    t := FinalizerWrite(w2, t0, src, o);
    finalizers := src.finalizers;
  }

  // ---------- The body of a stable run ----------

  /** The receiver lookup sees only the identity of the source. */
  lemma SameIdentity(ds: seq<Deployment>, vs: seq<Service>, s: Source, t: Source)
    requires s.uid == t.uid && s.name == t.name && s.namespace == t.namespace
    ensures HasReceiver(ds, s) <==> HasReceiver(ds, t)
    ensures ChooseService(vs, s) == ChooseService(vs, t)
  {
    if HasReceiver(ds, s) {
      var d :| d in ds && IsReceiverOf(d, s);
      assert IsReceiverOf(d, t);
    }
    if HasReceiver(ds, t) {
      var d :| d in ds && IsReceiverOf(d, t);
      assert IsReceiverOf(d, s);
    }
    SameChoice(vs, s, t);
  }

  lemma {:induction false} SameChoice(vs: seq<Service>, s: Source, t: Source)
    requires s.name == t.name && s.namespace == t.namespace
    ensures ChooseService(vs, s) == ChooseService(vs, t)
  {
    if vs != [] { SameChoice(vs[..|vs| - 1], s, t); }
  }

  /** What the body of a stable run makes of the world and the working copy. */
  ghost predicate StableBody(w: World, s: Source, uri: Option<string>, id: int, b: Step) {
    var src := b.source;
    && b.world.gitlab.issued <= w.gitlab.issued + {id} && b.world.namespace == w.namespace && b.world.name == w.name
    && b.result.Success? && b.world.store == w.store && b.world.ledger.errors == w.ledger.errors && ValidGitLab(b.world.gitlab)
    && src == s.(status := src.status, finalizers := src.finalizers)
    && Sorted(src.status.conditions) && SettledFor(src.status, uri)
    && HasReceiver(b.world.kube.deployments, s)
    && (if HasReceiver(w.kube.deployments, s)
        then
          && b.world.kube == w.kube
          && src.finalizers == F.Add(s.finalizers) && KeyOf(src) != ""
          && (KeyOf(s) != "" ==> b.world == w && KeyOf(src) == KeyOf(s) && (SettledFor(s.status, uri) ==> src.status == s.status))
        else src.finalizers == s.finalizers && KeyOf(src) == KeyOf(s))
  }

  lemma StableChildren(w: World, s: Source, s1: Source, uri: Option<string>, o: Oracle)
    requires ValidGitLab(w.gitlab) && Calm(o) && s1 == s.(status := s1.status) && KeyOf(s1) == KeyOf(s) && !HasReceiver(w.kube.deployments, s)
    requires Sorted(s1.status.conditions) && SettledFor(s1.status, uri)
    ensures StableBody(w, s, uri, o.hookId, MakeChildren(w, s1, o))
  {
    assert EnvSteps(w, []) == w;
    var w1 := AddReceiver(w, s1, o);
    assert EnvSteps(w1, []) == w1;
    CreatedReceiverIsFound(w.kube.deployments, s1, o.image, o.deploymentSuffix);
    SameIdentity(w1.kube.deployments, [], s, s1);
  }

  lemma StableHook(w: World, s: Source, s1: Source, uri: Option<string>, o: Oracle)
    requires ValidGitLab(w.gitlab) && Stable(w, s, uri, o) && HasReceiver(w.kube.deployments, s)
    requires s1 == s.(status := s1.status) && KeyOf(s1) == KeyOf(s) && (SettledFor(s.status, uri) ==> s1.status == s.status)
    requires Sorted(s1.status.conditions) && SettledFor(s1.status, uri)
    ensures StableBody(w, s, uri, o.hookId, RegisterHook(w, s1, o))
  {
    var s2 := s1.(finalizers := F.Add(s1.finalizers));
    assert EnvSteps(w, []) == w;
    SameIdentity(w.kube.deployments, w.kube.services, s, s2);
    AtoiItoa(o.hookId);
    if KeyOf(s) == "" {
      var svc := ChooseService(w.kube.services, s2).value;
      var domain := svc.ingress[0] + ":" + Itoa(svc.nodePorts[0]);
      StableCreate(w, s2, domain, o);
      assert RegisterHook(w, s1, o) == CreateWebhook(w, s2, domain, o);
    }
  }

  lemma StableCreate(w: World, s: Source, domain: string, o: Oracle)
    requires ValidGitLab(w.gitlab) && Calm(o) && AddressOf(s.spec.projectURL).Ok? && o.hookId !in w.gitlab.issued && IsInt64(o.hookId)
    ensures var b := CreateWebhook(w, s, domain, o);
      && b.result.Success? && b.source == s.(status := s.status.(webhookIDKey := Itoa(o.hookId)))
      && b.world == w.(gitlab := b.world.gitlab, ledger := b.world.ledger) && b.world.ledger.errors == w.ledger.errors
      && ValidGitLab(b.world.gitlab) && b.world.gitlab.issued <= w.gitlab.issued + {o.hookId}
  {
    AddFacts(w.gitlab, AddressOf(s.spec.projectURL).value, o.hookId, HookConfigOf(s, domain, o), o.addHook);
  }

  lemma BodyOfStable(w: World, s: Source, uri: Option<string>, o: Oracle)
    requires Sorted(s.status.conditions) && !s.deleting && ValidGitLab(w.gitlab) && Stable(w, s, uri, o)
    ensures StableBody(w, s, uri, o.hookId, Body(w, s, o))
  {
    SettleOnce(s.spec, s.status, o);
    SettleKeepsKey(s.spec, s.status, o);
    var s1 := s.(status := SettleStatus(s.spec, s.status, o).status);
    assert EnvSteps(w, []) == w;
    SameIdentity(w.kube.deployments, w.kube.services, s, s1);
    if HasReceiver(w.kube.deployments, s) {
      StableHook(w, s, s1, uri, o);
    } else {
      StableChildren(w, s, s1, uri, o);
    }
  }

  // ---------- Rounds ----------

  /** What the rank counts, for a source as the server has it. */
  ghost predicate Complete(w: World, s: Source, uri: Option<string>) {
    && HasReceiver(w.kube.deployments, s) && SettledFor(s.status, uri) && KeyOf(s) != ""
    && F.OURS in s.finalizers && F.StrictlySorted(s.finalizers)
  }

  /** Rank zero means that nothing is missing; the source is then ready exactly when its sink resolved to something. */
  lemma RankZero(w: World, uri: Option<string>)
    requires LiveFresh(w)
    ensures var s := Server(w.store).value;
      && (Rank(w, uri) == 0 <==> Complete(w, s, uri))
      && (Rank(w, uri) == 0 ==> (IsReady(s.status) <==> uri.Some? && uri.value != ""))
  {
    var s := Server(w.store).value;
    F.WriteNeeded(s.finalizers);
    if SettledFor(s.status, uri) { AllPresent(s.status, uri); }
  }

  /** The result of the body decides the rank after the round. */
  lemma BodyLowersRank(w: World, s: Source, uri: Option<string>, o: Oracle, b: Step, w': World, t: Source, finalizers: seq<string>)
    requires StableBody(w, s, uri, o.hookId, b) && w'.kube == b.world.kube
    requires Server(w.store) == Some(s) && Server(w'.store) == Some(t)
    requires Revised(s, t, b.source.status, finalizers)
    requires finalizers == b.source.finalizers || (b.source.status != s.status && finalizers == s.finalizers)
    requires b.source.status != s.status || b.source.finalizers != s.finalizers || b.world.kube != w.kube
    ensures Rank(w', uri) < Rank(w, uri)
  {
    SameIdentity(w'.kube.deployments, [], s, t);
    F.AddRemoveAlgebra(s.finalizers);
  }

  /** The refreshed object after a round. */
  lemma RoundEnds(w: World, w1: World, t: Source)
    requires Ahead(w.store, w1.store, t) && !t.deleting && Sorted(t.status.conditions)
    ensures var w' := w1.(store := Latest(w1.store)); LiveFresh(w') && Server(w'.store) == Some(t)
  {
    AheadLatest(w.store, w1.store, t);
  }

  /** A run that finds nothing to write. */
  lemma NothingToWrite(w: World, s: Source, o: Oracle)
    requires Calm(o) && w.store.seen == |w.store.log| - 1
    ensures WriteBack(w, s, s, Success, o) == (w, Success)
  {
    assert EnvSteps(w, []) == w;
    DeliveredNothing(w, o.gaps.update);
  }

  lemma QuietLatest(w: World)
    requires Fresh(w.store)
    ensures w.(store := Latest(w.store)) == w
  {
  }

  /** `t` is `s` apart from version, status and finalizers. */
  ghost predicate Follows(s: Source, t: Source) {
    t == s.(rv := t.rv, status := t.status, finalizers := t.finalizers)
  }

  /** What a round makes of a live, fresh world: again a live, fresh world. */
  ghost predicate Rounded(w: World, s: Source, uri: Option<string>, id: int, r: (World, Result), w': World) {
    && Server(w.store) == Some(s) && LiveFresh(w') && ValidGitLab(w'.gitlab) && !r.1.Panicked?
    && Follows(s, Server(w'.store).value) && w'.gitlab.issued <= w.gitlab.issued + {id}
    && w'.namespace == w.namespace && w'.name == w.name
    && (Rank(w, uri) == 0 ==> r == (w, Success) && w' == w)
    && (Rank(w, uri) > 0 ==> Rank(w', uri) < Rank(w, uri))
    && (HasReceiver(w.kube.deployments, s) ==> w'.kube == w.kube)
  }

  lemma WritingRound(w: World, s: Source, uri: Option<string>, o: Oracle, b: Step)
    requires LiveFresh(w) && Server(w.store) == Some(s) && Calm(o) && StableBody(w, s, uri, o.hookId, b)
    requires b.source.status != s.status || b.source.finalizers != s.finalizers
    ensures var r := WriteBack(b.world, s, b.source, b.result, o);
      var w1 := Charge(r.0, r.1);
      Rank(w, uri) > 0 && Rounded(w, s, uri, o.hookId, (w1, r.1), w1.(store := Latest(w1.store)))
  {
    var t, finalizers := StableWriteBack(b.world, s, b.source, o);
    var r := WriteBack(b.world, s, b.source, b.result, o);
    var w1 := Charge(r.0, r.1);
    RoundEnds(w, w1, t);
    BodyLowersRank(w, s, uri, o, b, w1.(store := Latest(w1.store)), t, finalizers);
  }

  lemma UnwrittenRound(w: World, s: Source, uri: Option<string>, o: Oracle, b: Step)
    requires LiveFresh(w) && Server(w.store) == Some(s) && Calm(o) && StableBody(w, s, uri, o.hookId, b)
    requires b.source == s
    ensures var r := WriteBack(b.world, s, b.source, b.result, o);
      var w1 := Charge(r.0, r.1);
      Rounded(w, s, uri, o.hookId, (w1, r.1), w1.(store := Latest(w1.store)))
  {
    NothingToWrite(b.world, s, o);
    QuietLatest(b.world);
    var r := WriteBack(b.world, s, b.source, b.result, o);
    RankZero(w, uri);
    F.WriteNeeded(s.finalizers);
  }

  /** One round: the rank falls until it is zero; then a run succeeds and leaves the world as it is. */
  lemma RoundConverges(w: World, s: Source, uri: Option<string>, o: Oracle)
    requires LiveFresh(w) && ValidGitLab(w.gitlab) && Server(w.store) == Some(s) && Stable(w, s, uri, o)
    ensures Rounded(w, s, uri, o.hookId, Reconcile(w, o), Round(w, o))
  {
    var b := Body(w, s, o);
    BodyOfStable(w, s, uri, o);
    hide Body, StableBody, Rounded, WriteBack, LiveFresh, Stable;
    AtRun(w, s, uri, o);
    if b.source.status != s.status || b.source.finalizers != s.finalizers {
      WritingRound(w, s, uri, o, b);
    } else {
      UnchangedCopy(w, s, uri, o, b);
      UnwrittenRound(w, s, uri, o, b);
    }
  }

  lemma UnchangedCopy(w: World, s: Source, uri: Option<string>, o: Oracle, b: Step)
    requires StableBody(w, s, uri, o.hookId, b) && b.source.status == s.status && b.source.finalizers == s.finalizers
    ensures b.source == s
  {
  }

  lemma AtRun(w: World, s: Source, uri: Option<string>, o: Oracle)
    requires LiveFresh(w) && Server(w.store) == Some(s) && Stable(w, s, uri, o) && StableBody(w, s, uri, o.hookId, Body(w, s, o))
    ensures Calm(o) && !o.listerFails && w.store.cache == Some(s) && Body(w, s, o).result.Success?
  {
  }

  // ---------- Any number of rounds ----------

  /** What other clients may do between the rounds: everything but touch this source or remove Deployments. */
  predicate Benign(e: Event) {
    e.Deliver? || e.AddDeployment? || e.ServicesBecome? || e.OtherHook? || e.RemoveHook?
  }

  datatype Visit = Visit(before: seq<Event>, oracle: Oracle)

  function AfterVisit(w: World, v: Visit): World { Round(EnvSteps(w, v.before), v.oracle) }

  function AfterVisits(w: World, vs: seq<Visit>): World
    decreases |vs|
  {
    if vs == [] then w else AfterVisits(AfterVisit(w, vs[0]), vs[1..])
  }

  /** Every round finds a stable environment. */
  ghost predicate StableVisits(w: World, uri: Option<string>, vs: seq<Visit>)
    decreases |vs|
  {
    vs == [] || (
      && (forall e :: e in vs[0].before ==> Benign(e))
      && Server(w.store).Some? && Stable(EnvSteps(w, vs[0].before), Server(w.store).value, uri, vs[0].oracle)
      && StableVisits(AfterVisit(w, vs[0]), uri, vs[1..]))
  }

  lemma BenignStep(w: World, e: Event, uri: Option<string>)
    requires LiveFresh(w) && ValidGitLab(w.gitlab) && Benign(e)
    ensures var w' := EnvStep(w, e); w'.store == w.store && ValidGitLab(w'.gitlab) && Rank(w', uri) <= Rank(w, uri)
  {
    GitLabEventFacts(w.gitlab, e);
    var s, w' := Server(w.store).value, EnvStep(w, e);
    if HasReceiver(w.kube.deployments, s) {
      var d :| d in w.kube.deployments && IsReceiverOf(d, s);
      assert d in w'.kube.deployments && IsReceiverOf(d, s);
    }
  }

  lemma {:induction false} BenignSteps(w: World, es: seq<Event>, uri: Option<string>)
    requires LiveFresh(w) && ValidGitLab(w.gitlab) && forall e :: e in es ==> Benign(e)
    ensures var w' := EnvSteps(w, es); w'.store == w.store && ValidGitLab(w'.gitlab) && Rank(w', uri) <= Rank(w, uri)
    decreases |es|
  {
    if es != [] {
      BenignStep(w, es[0], uri);
      BenignSteps(EnvStep(w, es[0]), es[1..], uri);
    }
  }

  lemma VisitConverges(w: World, uri: Option<string>, v: Visit)
    requires LiveFresh(w) && ValidGitLab(w.gitlab) && (forall e :: e in v.before ==> Benign(e))
    requires Stable(EnvSteps(w, v.before), Server(w.store).value, uri, v.oracle)
    ensures var w' := AfterVisit(w, v);
      && LiveFresh(w') && ValidGitLab(w'.gitlab) && Follows(Server(w.store).value, Server(w'.store).value)
      && (Rank(w', uri) < Rank(w, uri) || Rank(w', uri) == 0)
  {
    hide Rank, Round, Stable;
    BenignSteps(w, v.before, uri);
    RoundConverges(EnvSteps(w, v.before), Server(w.store).value, uri, v.oracle);
  }

  lemma {:induction false} VisitsConverge(w: World, uri: Option<string>, vs: seq<Visit>)
    requires LiveFresh(w) && ValidGitLab(w.gitlab) && StableVisits(w, uri, vs)
    ensures var w' := AfterVisits(w, vs);
      && LiveFresh(w') && ValidGitLab(w'.gitlab) && Follows(Server(w.store).value, Server(w'.store).value)
      && (Rank(w', uri) == 0 || Rank(w', uri) + |vs| <= Rank(w, uri))
    decreases |vs|
  {
    hide Rank, LiveFresh, Stable, AfterVisit;
    if vs != [] {
      VisitConverges(w, uri, vs[0]);
      VisitsConverge(AfterVisit(w, vs[0]), uri, vs[1..]);
    }
  }

  /**
   Convergence: from every live state, four rounds in a stable environment complete the source, and
   from then on a run returns nil and changes nothing at all. Four is the largest possible rank.
   */
  lemma FourRoundsSuffice(w: World, uri: Option<string>, vs: seq<Visit>, o: Oracle)
    requires LiveFresh(w) && ValidGitLab(w.gitlab) && StableVisits(w, uri, vs) && |vs| >= 4
    ensures var w' := AfterVisits(w, vs);
      && Server(w'.store).Some? && Complete(w', Server(w'.store).value, uri)
      && Follows(Server(w.store).value, Server(w'.store).value)
      && (IsReady(Server(w'.store).value.status) <==> uri.Some? && uri.value != "")
      && (Stable(w', Server(w'.store).value, uri, o) ==> Reconcile(w', o) == (w', Success))
  {
    VisitsConverge(w, uri, vs);
    var w' := AfterVisits(w, vs);
    RankZero(w', uri);
    if Stable(w', Server(w'.store).value, uri, o) {
      RoundConverges(w', Server(w'.store).value, uri, o);
    }
  }

  /**
   A hook that GitLab has lost goes unnoticed: the completed source stays ready, and every run in a stable
   environment returns nil and changes nothing.
   */
  lemma RemovedHookGoesUnnoticed(w: World, s: Source, uri: Option<string>, id: int, o: Oracle)
    requires LiveFresh(w) && ValidGitLab(w.gitlab) && Server(w.store) == Some(s) && Complete(w, s, uri)
    requires Stable(EnvStep(w, RemoveHook(id)), s, uri, o)
    ensures var w1 := EnvStep(w, RemoveHook(id));
      Server(w1.store) == Some(s) && id !in LiveIds(w1.gitlab) && Reconcile(w1, o) == (w1, Success)
  {
    hide Complete, Stable, Reconcile, Round;
    var w1 := EnvStep(w, RemoveHook(id));
    RankZero(w, uri);
    BenignStep(w, RemoveHook(id), uri);
    RemoveEverywhereFacts(w.gitlab.hooks, id);
    RoundConverges(w1, s, uri, o);
  }

  // ---------- Stable environments exist ----------

  /** Everything is found and every call succeeds, except as given. */
  function PlainOracle(id: int, addHook: Reply, update: Reply, beforeUpdate: seq<Event>): Oracle {
    Oracle(Gaps([], [], [], [], [], [], [], beforeUpdate, []), 0, "image", false, Found("token"), Found("secret"), Found("http://sink"),
      false, Done, "", Done, "", false, id, addHook, false, Done, Done, update)
  }

  /** A load balancer with an address, under a name that the selection loop accepts. */
  function ServiceOf(w: World): Service {
    Service("", w.name, w.namespace, map[], None, [30000], ["10.0.0.1"])
  }

  lemma PlainIsStable(w: World, s: Source, id: int)
    requires s.spec.accessToken.Some? && s.spec.secretToken.Some? && AddressOf(s.spec.projectURL).Ok?
    requires id !in w.gitlab.issued && IsInt64(id) && s.namespace == w.namespace && s.name == w.name
    requires w.kube.services == [ServiceOf(w)]
    ensures Stable(w, s, Resolved(s.spec, PlainOracle(0, Done, Done, [])), PlainOracle(id, Done, Done, []))
  {
    assert w.kube.services[..0] == [];
    assert Candidate(ServiceOf(w), s);
  }

  /** Rounds after which the load balancer has an address, with the given fresh hook IDs. */
  function PlainVisits(w: World, ids: seq<int>): seq<Visit> {
    seq(|ids|, i requires 0 <= i < |ids| => Visit([ServicesBecome([ServiceOf(w)])], PlainOracle(ids[i], Done, Done, [])))
  }

  predicate FreshIds(ids: seq<int>, issued: set<int>) {
    && (forall i :: 0 <= i < |ids| ==> IsInt64(ids[i]) && ids[i] !in issued)
    && (forall i, j :: 0 <= i < j < |ids| ==> ids[i] != ids[j])
  }

  lemma OneServicesEvent(w: World, services: seq<Service>)
    ensures EnvSteps(w, [ServicesBecome(services)]) == w.(kube := w.kube.(services := services))
  {
    assert [ServicesBecome(services)][1..] == [];
  }

  /**
   The hypothesis of `FourRoundsSuffice` can be met from every live state of a source with secrets and a
   parsable URL.
   */
  lemma {:induction false} StableVisitsExist(w: World, ids: seq<int>)
    requires LiveFresh(w) && ValidGitLab(w.gitlab) && FreshIds(ids, w.gitlab.issued)
    requires var s := Server(w.store).value;
      s.spec.accessToken.Some? && s.spec.secretToken.Some? && AddressOf(s.spec.projectURL).Ok? && s.namespace == w.namespace && s.name == w.name
    ensures StableVisits(w, Resolved(Server(w.store).value.spec, PlainOracle(0, Done, Done, [])), PlainVisits(w, ids))
    decreases |ids|
  {
    hide Stable, AddressOf, Resolved, LiveFresh, Rank, Round, PlainOracle, PlainVisits, EnvSteps, ServiceOf;
    if ids == [] {
      NoVisits(w);
    } else {
      LiveIsThere(w);
      var s := Server(w.store).value;
      var uri := Resolved(s.spec, PlainOracle(0, Done, Done, []));
      var v := Visit([ServicesBecome([ServiceOf(w)])], PlainOracle(ids[0], Done, Done, []));
      var w0 := w.(kube := w.kube.(services := [ServiceOf(w)]));
      OneServicesEvent(w, [ServiceOf(w)]);
      FreshStays(w, w0);
      ServiceOfSame(w, w0);
      PlainIsStable(w0, s, ids[0]);
      RoundConverges(w0, s, uri, v.oracle);
      IdOfPlain(ids[0]);
      var w1 := AfterVisit(w, v);
      LiveIsThere(w1);
      PlainVisitsStep(w, w1, ids);
      FreshTail(ids, w.gitlab.issued, w1.gitlab.issued);
      StableVisitsExist(w1, ids[1..]);
    }
  }

  lemma NoVisits(w: World)
    ensures PlainVisits(w, []) == []
  {
  }

  lemma ServiceOfSame(w: World, w': World)
    requires w'.namespace == w.namespace && w'.name == w.name
    ensures ServiceOf(w') == ServiceOf(w)
  {
  }

  lemma IdOfPlain(id: int)
    ensures PlainOracle(id, Done, Done, []).hookId == id
  {
  }

  lemma PlainVisitsStep(w: World, w1: World, ids: seq<int>)
    requires ids != [] && w1.namespace == w.namespace && w1.name == w.name
    ensures PlainVisits(w, ids) != [] && PlainVisits(w, ids)[1..] == PlainVisits(w1, ids[1..])
    ensures PlainVisits(w, ids)[0] == Visit([ServicesBecome([ServiceOf(w)])], PlainOracle(ids[0], Done, Done, []))
  {
  }

  lemma FreshTail(ids: seq<int>, issued: set<int>, issued': set<int>)
    requires FreshIds(ids, issued) && ids != [] && issued' <= issued + {ids[0]}
    ensures FreshIds(ids[1..], issued')
  {
  }

  lemma LiveIsThere(w: World)
    requires LiveFresh(w)
    ensures Server(w.store).Some?
  {
  }

  lemma FreshStays(w: World, w0: World)
    requires LiveFresh(w) && w0.store == w.store
    ensures LiveFresh(w0)
  {
  }

  // ---------- The sink of the receiver ----------

  predicate Serves(d: Deployment, s: Source, u: string, o: Oracle) {
    d.sinkURI == u && d.image == o.image && d.secretToken == s.spec.secretToken && d.serviceAccountName == s.spec.serviceAccountName
  }

  /**
   A stable run without receiver creates one that sends to the sink just resolved, with the source's secret and
   account.
   */
  lemma ReceiverGetsTheSink(w: World, s: Source, u: string, o: Oracle)
    requires Sorted(s.status.conditions) && !s.deleting && Stable(w, s, Some(u), o)
    requires !HasReceiver(w.kube.deployments, s)
    ensures exists d :: d in Body(w, s, o).world.kube.deployments && IsReceiverOf(d, s) && Serves(d, s, u, o)
  {
    hide SettleStatus, HasReceiver, SettledFor, MakeReceiveAdapter;
    SettleOnce(s.spec, s.status, o);
    var s1 := s.(status := SettleStatus(s.spec, s.status, o).status);
    SettledSink(s1.status, u);
    SameIdentity(w.kube.deployments, [], s, s1);
    var d := Owned(MakeReceiveAdapter(s1, o.image), s1, o.deploymentSuffix);
    MadeReceiver(s, s1, u, o);
    Resting(w);
    CalmChildren(w, s1, o);
    assert (w.kube.deployments + [d])[|w.kube.deployments|] == d;
    assert d in Body(w, s, o).world.kube.deployments;
  }

  lemma Resting(w: World)
    ensures EnvSteps(w, []) == w
  {
  }

  lemma SettledSink(st: Status, u: string)
    requires SettledFor(st, Some(u))
    ensures st.sinkURI == u
  {
  }

  lemma MadeReceiver(s: Source, s1: Source, u: string, o: Oracle)
    requires s1 == s.(status := s1.status) && s1.status.sinkURI == u
    ensures var d := Owned(MakeReceiveAdapter(s1, o.image), s1, o.deploymentSuffix); IsReceiverOf(d, s) && Serves(d, s, u, o)
  {
  }

  lemma CalmChildren(w: World, s: Source, o: Oracle)
    requires Calm(o)
    ensures EnvSteps(w, []) == w && MakeChildren(w, s, o) == Step(AddService(AddReceiver(w, s, o), s, o), s, Success)
  {
    assert EnvSteps(w, []) == w && EnvSteps(AddReceiver(w, s, o), []) == AddReceiver(w, s, o);
  }

  predicate NothingBetween(vs: seq<Visit>) { forall v :: v in vs ==> v.before == [] }

  lemma {:induction false} RoundsKeepReceiver(w: World, uri: Option<string>, vs: seq<Visit>)
    requires LiveFresh(w) && ValidGitLab(w.gitlab) && StableVisits(w, uri, vs) && NothingBetween(vs)
    requires HasReceiver(w.kube.deployments, Server(w.store).value)
    ensures AfterVisits(w, vs).kube == w.kube
    decreases |vs|
  {
    if vs != [] {
      assert EnvSteps(w, []) == w;
      var s := Server(w.store).value;
      RoundConverges(w, s, uri, vs[0].oracle);
      var w1 := AfterVisit(w, vs[0]);
      SameIdentity(w.kube.deployments, [], s, Server(w1.store).value);
      hide Stable, LiveFresh, Rank, Round;
      RoundsKeepReceiver(w1, uri, vs[1..]);
    }
  }

  /**
   A new sink never reaches the receiver: four stable rounds make the source ready and its status show the
   sink `u`, while every Deployment still sends to the sink that was resolved when it was created.
   */
  lemma SinkChangeIsNotPropagated(w: World, u: string, vs: seq<Visit>)
    requires LiveFresh(w) && ValidGitLab(w.gitlab) && StableVisits(w, Some(u), vs) && NothingBetween(vs) && |vs| >= 4 && u != ""
    requires HasReceiver(w.kube.deployments, Server(w.store).value)
    ensures var w' := AfterVisits(w, vs);
      && Server(w'.store).Some? && IsReady(Server(w'.store).value.status) && Server(w'.store).value.status.sinkURI == u
      && w'.kube.deployments == w.kube.deployments
  {
    VisitsConverge(w, Some(u), vs);
    RankZero(AfterVisits(w, vs), Some(u));
    RoundsKeepReceiver(w, Some(u), vs);
  }

  /** Rounds with nothing between them, with the given fresh hook IDs. */
  function QuietVisits(ids: seq<int>): seq<Visit> {
    seq(|ids|, i requires 0 <= i < |ids| => Visit([], PlainOracle(ids[i], Done, Done, [])))
  }

  lemma QuietVisitsStep(ids: seq<int>)
    ensures NothingBetween(QuietVisits(ids)) && |QuietVisits(ids)| == |ids|
    ensures ids != [] ==> QuietVisits(ids)[1..] == QuietVisits(ids[1..]) && QuietVisits(ids)[0] == Visit([], PlainOracle(ids[0], Done, Done, []))
  {
  }

  /** Once the receiver and its load balancer are there, stable rounds need nothing between them. */
  lemma {:induction false} QuietVisitsExist(w: World, ids: seq<int>)
    requires LiveFresh(w) && ValidGitLab(w.gitlab) && FreshIds(ids, w.gitlab.issued) && w.kube.services == [ServiceOf(w)]
    requires var s := Server(w.store).value;
      && s.spec.accessToken.Some? && s.spec.secretToken.Some? && AddressOf(s.spec.projectURL).Ok? && s.namespace == w.namespace && s.name == w.name
      && HasReceiver(w.kube.deployments, s)
    ensures StableVisits(w, Resolved(Server(w.store).value.spec, PlainOracle(0, Done, Done, [])), QuietVisits(ids))
    decreases |ids|
  {
    hide Stable, AddressOf, Resolved, LiveFresh, Rank, Round, PlainOracle, QuietVisits, EnvSteps, ServiceOf, HasReceiver;
    QuietVisitsStep(ids);
    if ids != [] {
      LiveIsThere(w);
      Resting(w);
      var s := Server(w.store).value;
      var uri := Resolved(s.spec, PlainOracle(0, Done, Done, []));
      var v := Visit([], PlainOracle(ids[0], Done, Done, []));
      PlainIsStable(w, s, ids[0]);
      RoundConverges(w, s, uri, v.oracle);
      IdOfPlain(ids[0]);
      var w1 := AfterVisit(w, v);
      LiveIsThere(w1);
      ServiceOfSame(w, w1);
      SameIdentity(w1.kube.deployments, [], s, Server(w1.store).value);
      FreshTail(ids, w.gitlab.issued, w1.gitlab.issued);
      QuietVisitsExist(w1, ids[1..]);
    }
  }

  /** The user points the source to the address `u`, and the informer sees it. */
  function Redirected(w: World, u: string): World
    requires Server(w.store).Some?
  {
    EnvSteps(w, [EditSpec(Server(w.store).value.spec.(sink := None, uri := Some(u))), Deliver(|w.store.log|)])
  }

  lemma RedirectedFacts(w: World, s: Source, u: string)
    requires LiveFresh(w) && Server(w.store) == Some(s)
    ensures var w1 := Redirected(w, u);
      && LiveFresh(w1) && w1.gitlab == w.gitlab && w1.kube == w.kube && w1.namespace == w.namespace && w1.name == w.name
      && Server(w1.store) == Some(s.(rv := |w.store.log|, spec := s.spec.(sink := None, uri := Some(u))))
  {
    var e := EditSpec(s.spec.(sink := None, uri := Some(u)));
    var d := Deliver(|w.store.log|);
    var w0 := EnvStep(w, e);
    assert [e, d][1..] == [d] && [d][1..] == [];
    assert EnvSteps(w0, [d]) == EnvSteps(EnvStep(w0, d), []);
  }

  /**
   It happens to every source that has its receiver and load balancer, with secrets and a parsable URL:
   redirected to any address `u`, it is ready with the sink `u` after four quiet rounds, and every
   Deployment is what it was.
   */
  lemma RedirectedReceiverStays(w: World, s: Source, u: string, ids: seq<int>)
    requires LiveFresh(w) && ValidGitLab(w.gitlab) && Server(w.store) == Some(s) && u != "" && FreshIds(ids, w.gitlab.issued) && |ids| >= 4
    requires s.spec.accessToken.Some? && s.spec.secretToken.Some? && AddressOf(s.spec.projectURL).Ok? && s.namespace == w.namespace && s.name == w.name
    requires HasReceiver(w.kube.deployments, s) && w.kube.services == [ServiceOf(w)]
    ensures var w' := AfterVisits(Redirected(w, u), QuietVisits(ids));
      && Server(w'.store).Some? && IsReady(Server(w'.store).value.status) && Server(w'.store).value.status.sinkURI == u
      && w'.kube.deployments == w.kube.deployments
  {
    hide LiveFresh, ServiceOf, HasReceiver, AddressOf, Redirected, StableVisits, QuietVisits;
    RedirectedFacts(w, s, u);
    var w1 := Redirected(w, u);
    ServiceOfSame(w, w1);
    SameIdentity(w.kube.deployments, [], s, Server(w1.store).value);
    QuietVisitsExist(w1, ids);
    QuietVisitsStep(ids);
    SinkChangeIsNotPropagated(w1, u, QuietVisits(ids));
  }

  lemma {:induction false} DeliveredIff(w: World, es: seq<Event>)
    requires DeliversOnly(es) && w.store.seen == |w.store.log| - 2 && w.store.seen >= 0
    ensures EnvSteps(w, es) == if Deliver(|w.store.log| - 1) in es then w.(store := Latest(w.store)) else w
    decreases |es|
  {
    if es != [] {
      var w1 := EnvStep(w, es[0]);
      assert es == [es[0]] + es[1..];
      if w1 == w {
        DeliveredIff(w, es[1..]);
      } else {
        DeliveredNothing(w1, es[1..]);
      }
    }
  }

  lemma TwoWrites(w: World, s: Source, src: Source, o: Oracle)
    requires Fresh(w.store) && w.store.cache == Some(s) && Calm(o) && !s.deleting
    requires src.status != s.status && src.finalizers != s.finalizers
    ensures WriteBack(w, s, src, Success, o).1 == if Deliver(|w.store.log|) in o.gaps.update then Success else Failure
  {
    var t := StatusWrite(w, s, src, o);
    var w1 := WriteStatus(w, s, src, o).0;
    DeliveredIff(w1, o.gaps.update);
    var w2 := EnvSteps(w1, o.gaps.update);
    if w2 == w1 {
      FinalizerConflict(w1, src, o);
    } else {
      var t1, finalizers := DeliveredWrite(w, w1, w2, s, t, src, o);
    }
  }

  /**
   The run that registers the hook has two writes to make. Although no call fails, it returns an error
   unless the watch delivers the version of the first write before the second one.
   */
  lemma RegisteringConflicts(w: World, s: Source, uri: Option<string>, o: Oracle)
    requires LiveFresh(w) && ValidGitLab(w.gitlab) && Server(w.store) == Some(s) && Stable(w, s, uri, o)
    requires HasReceiver(w.kube.deployments, s) && KeyOf(s) == "" && F.OURS !in s.finalizers
    ensures Reconcile(w, o).1 == if Deliver(|w.store.log|) in o.gaps.update then Success else Failure
  {
    var b := Body(w, s, o);
    BodyOfStable(w, s, uri, o);
    F.WriteNeeded(s.finalizers);
    assert b.source.status != s.status && b.source.finalizers != s.finalizers;
    hide Body, StableBody, WriteBack, LiveFresh, Stable;
    AtRun(w, s, uri, o);
    BodyStore(w, s, uri, o, b);
    TwoWrites(b.world, s, b.source, o);
  }

  lemma BodyStore(w: World, s: Source, uri: Option<string>, o: Oracle, b: Step)
    requires LiveFresh(w) && Server(w.store) == Some(s) && StableBody(w, s, uri, o.hookId, b)
    ensures Fresh(b.world.store) && b.world.store == w.store && w.store.cache == Some(s) && !s.deleting
  {
  }
}
