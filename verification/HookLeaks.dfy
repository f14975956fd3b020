/**
 Why the accounting theorems have their hypotheses: three families of histories, each dropping one.

 A lost reply costs more than its failed run; making the source anew between the two writes, or
 editing the project URL, leaks a hook although every run returns nil.
 */
module HookLeaks {
  import opened Outcomes
  import opened Numerals
  import opened Statuses
  import opened Settling
  import opened Sources
  import opened ProjectUrls
  import opened Hooks
  import opened Resources
  import opened Protocol
  import opened Invariants
  import opened Accounting
  import opened Convergence
  import opened HookTheorems
  import F = Finalizers

  /** No environment step and no failure up to the registration of the hook; what follows is left open. */
  predicate Smooth(o: Oracle) {
    && o.gaps.list == [] && o.gaps.services == [] && o.gaps.hook == [] && o.gaps.status == [] && o.gaps.statusCall == [] && o.gaps.updateCall == []
    && !o.listerFails && !o.listDeploymentsFails && !o.listServicesFails && o.updateStatus.Done?
  }

  /** The next run of the cached source `s` gets to the registration of a hook and has no condition to update. */
  ghost predicate Poised(w: World, s: Source, o: Oracle) {
    && Smooth(o) && Available(s.spec, o) && SettledFor(s.status, Resolved(s.spec, o)) && AddressOf(s.spec.projectURL).Ok?
    && ValidGitLab(w.gitlab) && o.hookId !in w.gitlab.issued && IsInt64(o.hookId)
    && w.store.cache == Some(s) && !s.deleting && KeyOf(s) == ""
    && HasReceiver(w.kube.deployments, s)
    && var svc := ChooseService(w.kube.services, s);
       svc.Some? && svc.value.ingress != [] && svc.value.nodePorts != []
  }

  /** The world after the registration, and the working copy. */
  function WithHook(w: World, s: Source, o: Oracle, h: Hook): World {
    w.(gitlab := GitLab(w.gitlab.hooks + [h], w.gitlab.issued + {h.id}),
       ledger := w.ledger.(created := w.ledger.created + {h.id}, lostReplies := w.ledger.lostReplies + if o.addHook.Lost? then 1 else 0))
  }

  lemma PoisedBody(w: World, s: Source, o: Oracle) returns (h: Hook)
    requires Poised(w, s, o) && !o.addHook.Refused?
    ensures h.id == o.hookId && Ok(h.address) == AddressOf(s.spec.projectURL)
    ensures var b := Body(w, s, o);
      && b.world == WithHook(w, s, o, h)
      && b.source == s.(finalizers := F.Add(s.finalizers), status := s.status.(webhookIDKey := if o.addHook.Done? then Itoa(o.hookId) else ""))
      && b.result == if o.addHook.Done? then Success else Failure
    ensures ValidGitLab(WithHook(w, s, o, h).gitlab)
  {
    var s1 := s.(finalizers := F.Add(s.finalizers));
    SettleOnce(s.spec, s.status, o);
    assert EnvSteps(w, []) == w;
    SameIdentity(w.kube.deployments, w.kube.services, s, s1);
    var svc := ChooseService(w.kube.services, s1).value;
    var domain := svc.ingress[0] + ":" + Itoa(svc.nodePorts[0]);
    h := Hook(o.hookId, AddressOf(s.spec.projectURL).value, HookConfigOf(s1, domain, o));
    AddFacts(w.gitlab, h.address, h.id, h.config, o.addHook);
    hide AddressOf, HasReceiver, ChooseService, SettleStatus, F.Add;
    assert ReconcileLive(w, s, o) == RegisterHook(w, s, o);
    assert RegisterHook(w, s, o) == CreateWebhook(w, s1, domain, o);
    CreateExact(w, s1, domain, o, h);
  }

  lemma CreateExact(w: World, s: Source, domain: string, o: Oracle, h: Hook)
    requires ValidGitLab(w.gitlab) && !o.addHook.Refused? && IsInt64(o.hookId) && o.hookId !in w.gitlab.issued
    requires AddressOf(s.spec.projectURL) == Ok(h.address) && h == Hook(o.hookId, h.address, HookConfigOf(s, domain, o))
    ensures var b := CreateWebhook(w, s, domain, o);
      && b.world == WithHook(w, s, o, h)
      && b.source == (if o.addHook.Done? then s.(status := s.status.(webhookIDKey := Itoa(o.hookId))) else s)
      && b.result == if o.addHook.Done? then Success else Failure
  {
  }

  // ---------- A history that leads to a poised source ----------

  /** A source that can be created and reconciled. */
  predicate Creatable(w: World, uid: nat, spec: Spec) {
    && spec.accessToken.Some? && spec.secretToken.Some? && AddressOf(spec.projectURL).Ok?
    && forall d :: d in w.kube.deployments ==> d.controller != Some(uid)
  }

  /** After `actions` the source exists, has its receiver and a settled status, but no hook and no finalizer. */
  ghost predicate Prepared(w0: World, w: World, s: Source, uid: nat, spec: Spec) {
    && LiveFresh(w) && Server(w.store) == Some(s) && |w.store.log| == 3
    && s == Source(w0.namespace, w0.name, uid, s.rv, false, [], spec, s.status) && KeyOf(s) == ""
    && w.namespace == w0.namespace && w.name == w0.name && w.uids == {uid}
    && SettledFor(s.status, Resolved(spec, PlainOracle(0, Done, Done, [])))
    && HasReceiver(w.kube.deployments, s) && w.kube.services == [ServiceOf(w0)]
    && (forall d :: d in w.kube.deployments ==> d in w0.kube.deployments || d.controller == Some(uid))
    && w.gitlab == w0.gitlab && w.ledger.created == {} && w.ledger.errors == 0 && w.ledger.lostReplies == 0
  }

  lemma CreateAndDeliver(w0: World, uid: nat, spec: Spec) returns (w: World, s: Source)
    requires Initial(w0) && Creatable(w0, uid, spec)
    ensures w == EnvStep(EnvStep(w0, CreateSource(uid, [], spec)), Deliver(1))
    ensures s == Source(w0.namespace, w0.name, uid, 1, false, [], spec, EMPTY_STATUS)
    ensures w == w0.(store := Store([None, Some(s)], 1, Some(s)), uids := {uid})
  {
    s := Source(w0.namespace, w0.name, uid, 1, false, [], spec, EMPTY_STATUS);
    Created(w0, uid, spec, s);
    w := EnvStep(w0.(store := Store([None, Some(s)], 0, None), uids := {uid}), Deliver(1));
  }

  lemma Created(w0: World, uid: nat, spec: Spec, s: Source)
    requires Initial(w0) && Creatable(w0, uid, spec)
    requires s == Source(w0.namespace, w0.name, uid, 1, false, [], spec, EMPTY_STATUS)
    ensures EnvStep(w0, CreateSource(uid, [], spec)) == w0.(store := Store([None, Some(s)], 0, None), uids := {uid})
  {
  }

  /** What the first run makes of the new source: a settled status, and the children. */
  ghost predicate FirstBodyPost(w1: World, s: Source, b: Step, o: Oracle) {
    var s1 := b.source;
    && b == Step(AddService(AddReceiver(w1, s1, o), s1, o), s1, Success)
    && s1 == s.(status := s1.status) && KeyOf(s1) == "" && SettledFor(s1.status, Resolved(s.spec, o))
    && HasReceiver(b.world.kube.deployments, s)
  }

  lemma FirstBody(w1: World, s: Source, o: Oracle)
    requires s.status == EMPTY_STATUS && !s.deleting && Available(s.spec, o) && Calm(o)
    requires forall d :: d in w1.kube.deployments ==> d.controller != Some(s.uid)
    ensures FirstBodyPost(w1, s, Body(w1, s, o), o)
  {
    SettleOnce(s.spec, s.status, o);
    SettleKeepsKey(s.spec, s.status, o);
    var s1 := s.(status := SettleStatus(s.spec, s.status, o).status);
    assert EnvSteps(w1, []) == w1;
    var w2 := AddReceiver(w1, s1, o);
    assert EnvSteps(w2, []) == w2;
    assert !HasReceiver(w1.kube.deployments, s1);
    CreatedReceiverIsFound(w1.kube.deployments, s1, o.image, o.deploymentSuffix);
    SameIdentity(w2.kube.deployments, [], s, s1);
  }

  lemma StatusOnly(w: World, s: Source, src: Source, o: Oracle) returns (t: Source)
    requires Fresh(w.store) && w.store.cache == Some(s) && Calm(o) && o.gaps.update == []
    requires src.status != s.status && src.finalizers == s.finalizers
    ensures t == s.(status := src.status, rv := |w.store.log|)
    ensures var r := WriteBack(w, s, src, Success, o);
      && r == (w.(store := r.0.store), Success)
      && r.0.store.log == w.store.log + [Some(t)] && r.0.store.seen == w.store.seen
  {
    t := StatusWrite(w, s, src, o);
    var w1 := WriteStatus(w, s, src, o).0;
    assert EnvSteps(w1, []) == w1;
  }

  lemma FirstRun(w0: World, w1: World, s: Source, uid: nat, spec: Spec) returns (t: Source, w: World)
    requires Initial(w0) && Creatable(w0, uid, spec)
    requires s == Source(w0.namespace, w0.name, uid, 1, false, [], spec, EMPTY_STATUS)
    requires w1 == w0.(store := Store([None, Some(s)], 1, Some(s)), uids := {uid})
    ensures w == Reconcile(w1, PlainOracle(0, Done, Done, [])).0
    ensures t == s.(status := t.status, rv := 2) && KeyOf(t) == "" && SettledFor(t.status, Resolved(spec, PlainOracle(0, Done, Done, [])))
    ensures HasReceiver(w.kube.deployments, t)
    ensures forall d :: d in w.kube.deployments ==> d in w0.kube.deployments || d.controller == Some(uid)
    ensures w == w1.(store := w.store, kube := w.kube, ledger := w.ledger)
    ensures w.ledger == w1.ledger.(receivers := w.ledger.receivers, services := w.ledger.services)
    ensures w.store.log == [None, Some(s), Some(t)] && w.store.seen == 1
  {
    hide Body, WriteBack, Calm, Available, SettledFor, HasReceiver, StoreOK;
    var o := PlainOracle(0, Done, Done, []);
    PlainIsCalm(spec);
    FirstBody(w1, s, o);
    var b := Body(w1, s, o);
    w := Reconcile(w1, o).0;
    SettledIsNotEmpty(b.source.status, Resolved(spec, o));
    NewIsFresh(w1.store, s);
    t := StatusOnly(b.world, s, b.source, o);
    SameIdentity(w.kube.deployments, [], s, t);
  }

  lemma PlainIsCalm(spec: Spec)
    requires spec.accessToken.Some? && spec.secretToken.Some?
    ensures Calm(PlainOracle(0, Done, Done, [])) && Available(spec, PlainOracle(0, Done, Done, []))
  {
  }

  lemma SettledIsNotEmpty(st: Status, uri: Option<string>)
    ensures SettledFor(st, uri) ==> st != EMPTY_STATUS
  {
  }

  lemma NewIsFresh(st: Store, s: Source)
    requires st == Store([None, Some(s)], 1, Some(s)) && s.rv == 1
    ensures Fresh(st)
  {
  }

  lemma ExecCons(w: World, a: Action, rest: seq<Action>)
    ensures Exec(w, [a] + rest) == Exec(Act(w, a), rest)
  {
    assert ([a] + rest)[1..] == rest;
  }

  /** The source appears and is delivered, the first run settles it, and the load balancer gets its address. */
  function Preparation(w0: World, uid: nat, spec: Spec): seq<Action> {
    [Environment(CreateSource(uid, [], spec))] + ([Environment(Deliver(1))] + ([Run(PlainOracle(0, Done, Done, []))]
      + ([Environment(Deliver(2))] + ([Environment(ServicesBecome([ServiceOf(w0)]))] + []))))
  }

  lemma PreparationSteps(w0: World, uid: nat, spec: Spec)
    ensures Exec(w0, Preparation(w0, uid, spec))
         == EnvStep(EnvStep(Reconcile(EnvStep(EnvStep(w0, CreateSource(uid, [], spec)), Deliver(1)), PlainOracle(0, Done, Done, [])).0,
                            Deliver(2)), ServicesBecome([ServiceOf(w0)]))
    ensures forall a :: a in Preparation(w0, uid, spec) ==> Ordinary(a, spec.projectURL)
  {
    hide EnvStep, Reconcile, PlainOracle;
    var o := PlainOracle(0, Done, Done, []);
    var e: seq<Action> := [Environment(ServicesBecome([ServiceOf(w0)]))] + [];
    var d := [Environment(Deliver(2))] + e;
    var c := [Run(o)] + d;
    var b := [Environment(Deliver(1))] + c;
    var w1 := EnvStep(w0, CreateSource(uid, [], spec));
    var w2 := EnvStep(w1, Deliver(1));
    var w3 := Reconcile(w2, o).0;
    var w4 := EnvStep(w3, Deliver(2));
    ExecCons(w0, Environment(CreateSource(uid, [], spec)), b);
    ExecCons(w1, Environment(Deliver(1)), c);
    ExecCons(w2, Run(o), d);
    ExecCons(w3, Environment(Deliver(2)), e);
    ExecCons(w4, Environment(ServicesBecome([ServiceOf(w0)])), []);
    PlainOrdinary(0, Done, Done, spec.projectURL);
  }

  lemma PlainOrdinary(id: int, addHook: Reply, update: Reply, url: string)
    ensures Ordinary(Run(PlainOracle(id, addHook, update, [])), url)
  {
  }

  lemma Prepare(w0: World, uid: nat, spec: Spec) returns (w: World, s: Source)
    requires Initial(w0) && Creatable(w0, uid, spec)
    ensures w == Exec(w0, Preparation(w0, uid, spec)) && Prepared(w0, w, s, uid, spec)
  {
    var w1, s1 := CreateAndDeliver(w0, uid, spec);
    var t, w2 := FirstRun(w0, w1, s1, uid, spec);
    PreparationSteps(w0, uid, spec);
    hide Reconcile, Exec, PlainOracle;
    s := t;
    w := EnvStep(EnvStep(w2, Deliver(2)), ServicesBecome([ServiceOf(w0)]));
    SecondDelivered(w0, w2, w, s1, t);
  }

  lemma SecondDelivered(w0: World, w2: World, w: World, s: Source, t: Source)
    requires w2.store.log == [None, Some(s), Some(t)] && w2.store.seen == 1 && t.rv == 2 && s.rv == 1
    requires w == EnvStep(EnvStep(w2, Deliver(2)), ServicesBecome([ServiceOf(w0)]))
    ensures w == w2.(store := Store(w2.store.log, 2, Some(t)), kube := w2.kube.(services := [ServiceOf(w0)]))
    ensures Fresh(w.store)
  {
  }

  lemma PreparedPoised(w0: World, w: World, s: Source, uid: nat, spec: Spec, o: Oracle, id: int, addHook: Reply, update: Reply, before: seq<Event>)
    requires Initial(w0) && Creatable(w0, uid, spec) && Prepared(w0, w, s, uid, spec)
    requires IsInt64(id) && id !in w0.gitlab.issued && o == PlainOracle(id, addHook, update, before)
    ensures Poised(w, s, o)
  {
    var svc := ServiceOf(w0);
    assert w.kube.services[..0] == [];
    assert Candidate(svc, s);
  }

  // ---------- A lost reply ----------

  lemma RefusedWrites(w: World, s: Source, src: Source, o: Oracle)
    requires Smooth(o) && o.update.Refused? && o.gaps.update == [] && w.store.cache == Some(s)
    requires src.status == s.status && src.finalizers != s.finalizers
    ensures WriteBack(w, s, src, Failure, o) == (w.(store := w.store.(cache := Some(s.(finalizers := src.finalizers)))), Failure)
  {
    var w1 := w.(store := w.store.(cache := Some(s.(finalizers := src.finalizers))));
    assert EnvSteps(w, []) == w && EnvSteps(w1, []) == w1;
  }

  /** Where a poised run takes its working copy. */
  lemma PoisedRun(w: World, s: Source, o: Oracle) returns (h: Hook, src: Source)
    requires Poised(w, s, o) && !o.addHook.Refused?
    ensures h.id == o.hookId && ValidGitLab(WithHook(w, s, o, h).gitlab) && Ok(h.address) == AddressOf(s.spec.projectURL)
    ensures src == s.(finalizers := F.Add(s.finalizers), status := s.status.(webhookIDKey := if o.addHook.Done? then Itoa(o.hookId) else ""))
    ensures RunOnce(w, o) == WriteBack(WithHook(w, s, o, h), s, src, if o.addHook.Done? then Success else Failure, o)
    ensures o.addHook.Lost? ==> src.status == s.status
    ensures o.addHook.Done? ==> src.status != s.status && KeyOf(src) != ""
  {
    h := PoisedBody(w, s, o);
    AtoiItoa(o.hookId);
    src := s.(finalizers := F.Add(s.finalizers), status := s.status.(webhookIDKey := if o.addHook.Done? then Itoa(o.hookId) else ""));
    hide Body, F.Add, WriteBack;
  }

  /**
   The finalizers are refused after the reply of the registration was lost: the cached object claims them all
   the same.
   */
  lemma LostRun(w: World, s: Source, o: Oracle) returns (h: Hook)
    requires Poised(w, s, o) && o.addHook.Lost? && o.update.Refused? && o.gaps.update == [] && F.Add(s.finalizers) != s.finalizers
    ensures h.id == o.hookId && ValidGitLab(WithHook(w, s, o, h).gitlab)
    ensures var w1 := WithHook(w, s, o, h);
      Reconcile(w, o) == (w1.(store := w.store.(cache := Some(s.(finalizers := F.Add(s.finalizers)))),
                              ledger := w1.ledger.(errors := w.ledger.errors + 1)), Failure)
  {
    hide RunOnce, WriteBack, F.Add;
    var src;
    h, src := PoisedRun(w, s, o);
    RefusedWrites(WithHook(w, s, o, h), s, src, o);
  }

  lemma StatusLands(w: World, s: Source, c: Source, src: Source, o: Oracle) returns (t: Source)
    requires Smooth(o) && o.gaps.update == [] && w.store.cache == Some(c) && Server(w.store) == Some(s) && c.rv == s.rv
    requires src.status != c.status && src.status != s.status && src.finalizers == c.finalizers
    ensures t == s.(status := src.status, rv := |w.store.log|)
    ensures var r := WriteBack(w, c, src, Success, o);
      r.1 == Success && r.0 == w.(store := r.0.store) && r.0.store.log == w.store.log + [Some(t)]
  {
    t := s.(status := src.status, rv := |w.store.log|);
    var w2 := w.(store := w.store.(cache := Some(c.(status := src.status))));
    assert EnvSteps(w, []) == w && EnvSteps(w2, []) == w2;
    var w3 := w2.(store := Commit(w2.store, s.(status := src.status)));
    assert EnvSteps(w3, []) == w3;
  }

  /**
   The run that registers a hook for a cached object that already claims the finalizer stores the ID and
   returns nil.
   */
  lemma MaskedRun(w: World, s: Source, c: Source, o: Oracle) returns (h: Hook, t: Source)
    requires Poised(w, c, o) && o.addHook.Done? && o.gaps.update == [] && F.Add(c.finalizers) == c.finalizers
    requires c == s.(finalizers := c.finalizers) && Server(w.store) == Some(s)
    ensures h.id == o.hookId && t == s.(status := t.status, rv := |w.store.log|) && KeyOf(t) == Itoa(o.hookId)
    ensures var w1, r := WithHook(w, c, o, h), Reconcile(w, o);
      r.1 == Success && r.0 == w1.(store := r.0.store) && r.0.store.log == w.store.log + [Some(t)]
  {
    hide RunOnce, WriteBack, F.Add;
    var src;
    h, src := PoisedRun(w, c, o);
    t := StatusLands(WithHook(w, c, o, h), s, c, src, o);
  }

  /** An object without finalizers goes at once, and takes the recorded ID with it. */
  lemma VanishLeaks(w: World, t: Source)
    requires Server(w.store) == Some(t) && t.finalizers == []
    ensures var w' := EnvStep(w, DeleteSource); Server(w'.store) == None && Unrecorded(w') == OurLive(w) && w'.ledger == w.ledger
  {
  }

  lemma TwoHooksLive(w: World, s: Source, c: Source, o1: Oracle, o2: Oracle, w1: World, w2: World, h1: Hook, h2: Hook)
    requires w.ledger.created == {} && h1.id != h2.id
    requires w1.gitlab == WithHook(w, s, o1, h1).gitlab && w1.ledger.created == {h1.id}
    requires w2.gitlab == WithHook(w1, c, o2, h2).gitlab && w2.ledger.created == {h1.id, h2.id}
    ensures OurLive(w2) == {h1.id, h2.id}
  {
    LiveIdsAppend(w.gitlab.hooks, h1, w.gitlab.issued, w1.gitlab.issued);
    LiveIdsAppend(w1.gitlab.hooks, h2, w1.gitlab.issued, w2.gitlab.issued);
  }

  lemma AddToNone()
    ensures F.Add([]) == [F.OURS] && F.Add([F.OURS]) == [F.OURS] && F.OURS !in []
  {
    F.AddRemoveAlgebra([]);
    assert F.Canonical([]) == [];
  }

  /** The three actions after the preparation. */
  function LostReplyTail(id1: int, id2: int): seq<Action> {
    [Run(PlainOracle(id1, Lost, Refused, []))] + ([Run(PlainOracle(id2, Done, Done, []))] + ([Environment(DeleteSource)] + []))
  }

  lemma LostReplySteps(w: World, id1: int, id2: int)
    ensures Exec(w, LostReplyTail(id1, id2))
         == EnvStep(Reconcile(Reconcile(w, PlainOracle(id1, Lost, Refused, [])).0, PlainOracle(id2, Done, Done, [])).0, DeleteSource)
  {
    hide EnvStep, Reconcile, PlainOracle;
    var o1, o2 := PlainOracle(id1, Lost, Refused, []), PlainOracle(id2, Done, Done, []);
    var e: seq<Action> := [Environment(DeleteSource)] + [];
    ExecCons(w, Run(o1), [Run(o2)] + e);
    ExecCons(Reconcile(w, o1).0, Run(o2), e);
    ExecCons(Reconcile(Reconcile(w, o1).0, o2).0, Environment(DeleteSource), []);
  }

  lemma LostReplyFrom(w0: World, w: World, s: Source, uid: nat, spec: Spec, id1: int, id2: int)
    requires Initial(w0) && Creatable(w0, uid, spec) && Prepared(w0, w, s, uid, spec)
    requires IsInt64(id1) && IsInt64(id2) && id1 != id2 && id1 !in w0.gitlab.issued && id2 !in w0.gitlab.issued
    ensures var w' := EnvStep(Reconcile(Reconcile(w, PlainOracle(id1, Lost, Refused, [])).0, PlainOracle(id2, Done, Done, [])).0, DeleteSource);
      w'.ledger.errors == 1 && Unrecorded(w') == {id1, id2}
  {
    var o1, o2 := PlainOracle(id1, Lost, Refused, []), PlainOracle(id2, Done, Done, []);
    AddToNone();
    PreparedPoised(w0, w, s, uid, spec, o1, id1, Lost, Refused, []);
    var h1 := LostRun(w, s, o1);
    var w1 := Reconcile(w, o1).0;
    var c := s.(finalizers := [F.OURS]);
    SameIdentity(w1.kube.deployments, w1.kube.services, s, c);
    PreparedPoised(w0, w, s, uid, spec, o2, id2, Done, Done, []);
    StillPoised(w, s, o2, w1, c, h1, o1);
    hide Poised, Reconcile, Prepared, PlainOracle;
    var h2, t := MaskedRun(w1, s, c, o2);
    var w2 := Reconcile(w1, o2).0;
    TwoHooksLive(w, s, c, o1, o2, w1, w2, h1, h2);
    VanishLeaks(w2, t);
  }

  lemma StillPoised(w: World, s: Source, o: Oracle, w1: World, c: Source, h: Hook, o1: Oracle)
    requires Poised(w, s, o) && c == s.(finalizers := c.finalizers) && w1.store.cache == Some(c) && w1.kube == w.kube
    requires w1.gitlab == WithHook(w, s, o1, h).gitlab && ValidGitLab(w1.gitlab) && h.id != o.hookId
    ensures Poised(w1, c, o)
  {
    SameIdentity(w1.kube.deployments, w1.kube.services, s, c);
  }

  /**
   The bound by failed runs alone is false: from every initial world and for every creatable source
   there is a history, with a fixed URL and without replacement, with one failed run and two leaked hooks.
   */
  lemma LostReplyLeaksTwo(w0: World, uid: nat, spec: Spec, id1: int, id2: int)
    requires Initial(w0) && Creatable(w0, uid, spec)
    requires IsInt64(id1) && IsInt64(id2) && id1 != id2 && id1 !in w0.gitlab.issued && id2 !in w0.gitlab.issued
    ensures var actions := Preparation(w0, uid, spec) + LostReplyTail(id1, id2);
      var w := Exec(w0, actions);
      && (forall a :: a in actions ==> Ordinary(a, spec.projectURL))
      && w.ledger.errors == 1 && |Unrecorded(w)| == 2
  {
    hide Reconcile, Preparation, LostReplyTail, PlainOracle, Creatable, Initial;
    var w, s := Prepare(w0, uid, spec);
    PreparationSteps(w0, uid, spec);
    ExecConcat(w0, Preparation(w0, uid, spec), LostReplyTail(id1, id2));
    LostReplySteps(w, id1, id2);
    LostReplyFrom(w0, w, s, uid, spec, id1, id2);
    LostReplyOrdinary(id1, id2, spec.projectURL);
  }

  lemma LostReplyOrdinary(id1: int, id2: int, url: string)
    ensures forall a :: a in LostReplyTail(id1, id2) ==> Ordinary(a, url)
  {
    PlainOrdinary(id1, Lost, Refused, url);
    PlainOrdinary(id2, Done, Done, url);
  }

  // ---------- A new source between the writes ----------

  /** The user deletes the source, which no finalizer holds, makes it anew, and the watch delivers the new object. */
  function Recreate(uid: nat, spec: Spec, version: nat): seq<Event> {
    [DeleteSource] + ([CreateSource(uid, [], spec)] + ([Deliver(version)] + []))
  }

  lemma EnvCons(w: World, e: Event, rest: seq<Event>)
    ensures EnvSteps(w, [e] + rest) == EnvSteps(EnvStep(w, e), rest)
  {
    assert ([e] + rest)[1..] == rest;
  }

  lemma RecreateSteps(w: World, uid: nat, spec: Spec, version: nat)
    ensures EnvSteps(w, Recreate(uid, spec, version)) == EnvStep(EnvStep(EnvStep(w, DeleteSource), CreateSource(uid, [], spec)), Deliver(version))
  {
    hide EnvStep;
    EnvCons(w, DeleteSource, [CreateSource(uid, [], spec)] + ([Deliver(version)] + []));
    EnvCons(EnvStep(w, DeleteSource), CreateSource(uid, [], spec), [Deliver(version)] + []);
    EnvCons(EnvStep(EnvStep(w, DeleteSource), CreateSource(uid, [], spec)), Deliver(version), []);
  }

  lemma Recreated(w: World, t: Source, uid: nat, spec: Spec) returns (n: Source)
    requires Server(w.store) == Some(t) && t.finalizers == [] && w.store.seen < |w.store.log|
    requires uid !in w.uids && forall d :: d in w.kube.deployments ==> d.controller != Some(uid)
    ensures n == Source(w.namespace, w.name, uid, |w.store.log| + 1, false, [], spec, EMPTY_STATUS)
    ensures var w' := EnvSteps(w, Recreate(uid, spec, |w.store.log| + 1));
      && w' == w.(store := w'.store, uids := w.uids + {uid})
      && w'.store == Store(w.store.log + [None, Some(n)], |w.store.log| + 1, Some(n))
  {
    RecreateSteps(w, uid, spec, |w.store.log| + 1);
    n := Source(w.namespace, w.name, uid, |w.store.log| + 1, false, [], spec, EMPTY_STATUS);
    var w1 := EnvStep(w, DeleteSource);
    assert w1.store.log == w.store.log + [None];
    var w2 := EnvStep(w1, CreateSource(uid, [], spec));
    assert w2.store.log == w1.store.log + [Some(n)];
    assert w2.store.log == w.store.log + [None, Some(n)];
  }

  /** The finalizer goes to the new object. */
  lemma UpdatesTheNewOne(w: World, n: Source, src: Source, o: Oracle)
    requires Smooth(o) && o.update.Done? && w.store.cache == Some(n) && Server(w.store) == Some(n)
    requires !n.deleting && src.finalizers != n.finalizers
    ensures var r := Update(w, src, o);
      r.1 && r.0 == w.(store := r.0.store) && Server(r.0.store) == Some(n.(finalizers := src.finalizers, rv := |w.store.log|))
  {
    var w1 := w.(store := w.store.(cache := Some(n.(finalizers := src.finalizers))));
    assert EnvSteps(w1, []) == w1;
  }

  lemma StatusStays(w: World, s: Source, src: Source, o: Oracle) returns (t: Source)
    requires Smooth(o) && Fresh(w.store) && w.store.cache == Some(s) && src.status != s.status
    ensures t == s.(status := src.status, rv := |w.store.log|)
    ensures WriteStatus(w, s, src, o) == (w.(store := Store(w.store.log + [Some(t)], w.store.seen, Some(s.(status := src.status)))), true)
  {
    t := s.(status := src.status, rv := |w.store.log|);
    assert EnvSteps(w, []) == w;
    var w1 := w.(store := w.store.(cache := Some(s.(status := src.status))));
    assert EnvSteps(w1, []) == w1;
  }

  lemma RecreatedWrites(w: World, s: Source, src: Source, uid: nat, spec: Spec, o: Oracle)
    requires Smooth(o) && o.update.Done? && Fresh(w.store) && w.store.cache == Some(s) && !s.deleting
    requires s.finalizers == [] && src.status != s.status && src.finalizers != []
    requires uid !in w.uids && (forall d :: d in w.kube.deployments ==> d.controller != Some(uid))
    requires o.gaps.update == Recreate(uid, spec, |w.store.log| + 2)
    ensures var r := WriteBack(w, s, src, Success, o);
      && r.1 == Success && r.0 == w.(store := r.0.store, uids := r.0.uids)
      && Server(r.0.store).Some? && KeyOf(Server(r.0.store).value) == "" && ServerHasOurs(r.0) == (F.OURS in src.finalizers)
  {
    hide EnvSteps, Recreate, Smooth, WriteStatus, Update;
    var t := StatusStays(w, s, src, o);
    var w1 := WriteStatus(w, s, src, o).0;
    var n := Recreated(w1, t, uid, spec);
    UpdatesTheNewOne(EnvSteps(w1, o.gaps.update), n, src, o);
  }

  /**
   Making the source anew between the two writes of one run leaks its hook, and nobody is told:
   every run of this history returns nil and the project URL never changes.
   */
  lemma RecreationLeaks(w0: World, uid: nat, newUid: nat, spec: Spec, id: int)
    requires Initial(w0) && Creatable(w0, uid, spec) && Creatable(w0, newUid, spec) && newUid != uid
    requires IsInt64(id) && id !in w0.gitlab.issued
    ensures var actions := Preparation(w0, uid, spec) + [Run(PlainOracle(id, Done, Done, Recreate(newUid, spec, 5)))];
      var w := Exec(w0, actions);
      && (forall a :: a in actions ==> UrlFixed(a, spec.projectURL))
      && w.ledger.errors == 0 && Unrecorded(w) == {id}
  {
    hide Reconcile, Preparation, Recreate, Initial, Creatable, PlainOracle;
    var o := PlainOracle(id, Done, Done, Recreate(newUid, spec, 5));
    var w, s := Prepare(w0, uid, spec);
    PreparationSteps(w0, uid, spec);
    ExecConcat(w0, Preparation(w0, uid, spec), [Run(o)]);
    assert [Run(o)] == [Run(o)] + [];
    ExecCons(w, Run(o), []);
    RecreationFrom(w0, w, s, uid, newUid, spec, id);
    RecreationFixed(id, newUid, spec);
    OrdinaryFixed(Preparation(w0, uid, spec), spec.projectURL);
  }

  lemma OrdinaryFixed(actions: seq<Action>, url: string)
    requires forall a :: a in actions ==> Ordinary(a, url)
    ensures forall a :: a in actions ==> UrlFixed(a, url)
  {
  }

  lemma RecreationFixed(id: int, uid: nat, spec: Spec)
    ensures UrlFixed(Run(PlainOracle(id, Done, Done, Recreate(uid, spec, 5))), spec.projectURL)
  {
  }

  lemma RecreationFrom(w0: World, w: World, s: Source, uid: nat, newUid: nat, spec: Spec, id: int)
    requires Initial(w0) && Creatable(w0, uid, spec) && Creatable(w0, newUid, spec) && newUid != uid
    requires IsInt64(id) && id !in w0.gitlab.issued && Prepared(w0, w, s, uid, spec)
    ensures var w' := Reconcile(w, PlainOracle(id, Done, Done, Recreate(newUid, spec, 5))).0;
      w'.ledger.errors == 0 && Unrecorded(w') == {id}
  {
    hide Poised, RunOnce, Recreate, SettledFor, HasReceiver, AddressOf, Available;
    var o := PlainOracle(id, Done, Done, Recreate(newUid, spec, 5));
    PreparedPoised(w0, w, s, uid, spec, o, id, Done, Done, Recreate(newUid, spec, 5));
    AddToNone();
    RecreatedRun(w, s, newUid, spec, o);
  }

  lemma RecreatedRun(w: World, s: Source, newUid: nat, spec: Spec, o: Oracle)
    requires Poised(w, s, o) && Smooth(o) && o.update.Done? && o.addHook.Done?
    requires Fresh(w.store) && !s.deleting && s.finalizers == [] && F.Add([]) != []
    requires newUid !in w.uids && (forall d :: d in w.kube.deployments ==> d.controller != Some(newUid))
    requires o.gaps.update == Recreate(newUid, spec, |w.store.log| + 2) && w.store.cache == Some(s)
    requires w.ledger.created == {}
    ensures var w' := Reconcile(w, o).0; w'.ledger.errors == w.ledger.errors && Unrecorded(w') == {o.hookId}
  {
    hide Poised, RunOnce, WriteBack, Recreate, Smooth, F.Add, OurLive, Unrecorded, Fresh;
    var h, src := PoisedRun(w, s, o);
    var w1 := WithHook(w, s, o, h);
    RecreatedWrites(w1, s, src, newUid, spec, o);
    OnlyHook(w, s, o, h, Reconcile(w, o).0);
  }

  lemma OnlyHook(w: World, s: Source, o: Oracle, h: Hook, w': World)
    requires w.ledger.created == {} && w'.gitlab == WithHook(w, s, o, h).gitlab && w'.ledger.created == {h.id}
    requires Server(w'.store).Some? && KeyOf(Server(w'.store).value) == ""
    ensures Unrecorded(w') == {h.id}
  {
    LiveIdsAppend(w.gitlab.hooks, h, w.gitlab.issued, w'.gitlab.issued);
    assert OurLive(w') == {h.id};
    assert RecordedId(w') == {};
  }
}
