/** At most one receiver Deployment for each UID, over every history. */
module Receivers {
  import opened Outcomes
  import opened Numerals
  import opened Sources
  import opened ProjectUrls
  import opened Hooks
  import opened Resources
  import opened Protocol
  import opened Bookkeeping
  import F = Finalizers

  predicate OwnedBy(d: Deployment, uid: nat) { d.controller == Some(uid) }

  /** No two Deployments have the same of our UIDs as controller. */
  ghost predicate OneEach(ds: seq<Deployment>, uids: set<nat>) {
    forall i, j :: 0 <= i < j < |ds| && ds[i].controller.Some? && ds[i].controller.value in uids ==> ds[j].controller != ds[i].controller
  }

  /** What our UIDs control looks like what `MakeReceiveAdapter` makes: the lookup cannot miss it. */
  ghost predicate Labelled(w: World) {
    forall d :: d in w.kube.deployments && d.controller.Some? && d.controller.value in w.uids
      ==> d.namespace == w.namespace && d.labels == map["eventing-source" := "gitlab-source-controller", "eventing-source-name" := w.name]
  }

  /** Every version of the source is of this namespace and name, and has one of our UIDs. */
  ghost predicate Named(w: World, s: Source) {
    s.namespace == w.namespace && s.name == w.name && s.uid in w.uids
  }

  ghost predicate AllNamed(w: World) {
    && (forall i :: 0 <= i < |w.store.log| && w.store.log[i].Some? ==> Named(w, w.store.log[i].value))
    && (w.store.cache.Some? ==> Named(w, w.store.cache.value))
  }

  ghost predicate ReceiversOK(w: World) {
    w.store.log != [] && OneEach(w.kube.deployments, w.uids) && Labelled(w) && AllNamed(w)
  }

  // ---------- The environment ----------

  lemma StepReceivers(w: World, e: Event)
    requires ReceiversOK(w)
    ensures ReceiversOK(EnvStep(w, e))
  {
    StepNames(w, e);
    StepDeployments(w, e);
  }

  lemma StepNames(w: World, e: Event)
    requires w.store.log != [] && AllNamed(w)
    ensures EnvStep(w, e).store.log != [] && AllNamed(EnvStep(w, e))
  {
    assert Server(w.store) == w.store.log[|w.store.log| - 1];
  }

  lemma StepDeployments(w: World, e: Event)
    requires OneEach(w.kube.deployments, w.uids) && Labelled(w)
    ensures OneEach(EnvStep(w, e).kube.deployments, EnvStep(w, e).uids) && Labelled(EnvStep(w, e))
  {
    match e
    case CreateSource(uid, _, _) =>
      if EnvStep(w, e).uids != w.uids {
        assert forall d :: d in w.kube.deployments ==> d.controller != Some(uid);
        forall i | 0 <= i < |w.kube.deployments| ensures w.kube.deployments[i].controller != Some(uid) {
          assert w.kube.deployments[i] in w.kube.deployments;
        }
      }
    case AddDeployment(d) =>
      if !(d.controller.Some? && d.controller.value in w.uids) { Appending(w.kube.deployments, d, w.uids); }
    case RemoveDeployment(i) =>
      if i < |w.kube.deployments| { Removing(w.kube.deployments, i, w.uids); }
    case _ =>
  }

  lemma Appending(ds: seq<Deployment>, d: Deployment, uids: set<nat>)
    requires OneEach(ds, uids) && (d.controller.Some? && d.controller.value in uids ==> forall x :: x in ds ==> x.controller != d.controller)
    ensures OneEach(ds + [d], uids)
  {
    forall i | 0 <= i < |ds| ensures ds[i] in ds {
    }
  }

  lemma Removing(ds: seq<Deployment>, k: nat, uids: set<nat>)
    requires OneEach(ds, uids) && k < |ds|
    ensures OneEach(ds[..k] + ds[k + 1..], uids)
    ensures forall d :: d in ds[..k] + ds[k + 1..] ==> d in ds
  {
    var r := ds[..k] + ds[k + 1..];
    assert forall i :: 0 <= i < |r| ==> r[i] == ds[if i < k then i else i + 1];
  }

  lemma {:induction false} StepsReceivers(w: World, es: seq<Event>)
    requires ReceiversOK(w)
    ensures ReceiversOK(EnvSteps(w, es)) && w.uids <= EnvSteps(w, es).uids
    ensures EnvSteps(w, es).namespace == w.namespace && EnvSteps(w, es).name == w.name
    decreases |es|
  {
    if es != [] {
      StepReceivers(w, es[0]);
      StepsReceivers(EnvStep(w, es[0]), es[1..]);
    }
  }

  // ---------- A run ----------

  /** A source of ours, whatever a run has done to its working copy. */
  ghost predicate OursIn(w: World, s: Source) { ReceiversOK(w) && Named(w, s) }

  lemma OursSteps(w: World, es: seq<Event>, s: Source)
    requires OursIn(w, s)
    ensures OursIn(EnvSteps(w, es), s)
  {
    StepsReceivers(w, es);
  }

  /** What the lookup does not find is not there at all. */
  lemma LookupIsComplete(w: World, s: Source)
    requires OursIn(w, s)
    ensures HasReceiver(w.kube.deployments, s) <==> exists d :: d in w.kube.deployments && OwnedBy(d, s.uid)
  {
    forall d | d in w.kube.deployments && OwnedBy(d, s.uid) ensures IsReceiverOf(d, s) {
    }
    if HasReceiver(w.kube.deployments, s) {
      var d :| d in w.kube.deployments && IsReceiverOf(d, s);
      assert OwnedBy(d, s.uid);
    }
  }

  /**
   The environment cannot make a Deployment for one of our UIDs, so the lookup before the gap still holds after
   it.
   */
  lemma {:induction false} StillNone(w: World, es: seq<Event>, uid: nat)
    requires uid in w.uids && forall d :: d in w.kube.deployments ==> !OwnedBy(d, uid)
    ensures forall d :: d in EnvSteps(w, es).kube.deployments ==> !OwnedBy(d, uid)
    decreases |es|
  {
    if es != [] {
      StillNone(EnvStep(w, es[0]), es[1..], uid);
    }
  }

  lemma CreatingKeeps(w: World, s: Source, o: Oracle)
    requires OursIn(w, s) && forall d :: d in w.kube.deployments ==> !OwnedBy(d, s.uid)
    ensures OursIn(AddReceiver(w, s, o), s)
  {
    var d := Owned(MakeReceiveAdapter(s, o.image), s, o.deploymentSuffix);
    Appending(w.kube.deployments, d, w.uids);
  }

  lemma ChildrenReceivers(w: World, s: Source, o: Oracle)
    requires OursIn(w, s) && !HasReceiver(w.kube.deployments, s)
    ensures ReceiversOK(MakeChildren(w, s, o).world)
  {
    hide ReceiversOK, AddReceiver;
    LookupIsComplete(w, s);
    var w1 := EnvSteps(w, o.gaps.deployment);
    OursSteps(w, o.gaps.deployment, s);
    StillNone(w, o.gaps.deployment, s.uid);
    CreatingKeeps(w1, s, o);
    var w2 := AddReceiver(w1, s, o);
    var w3 := EnvSteps(w2, o.gaps.service);
    OursSteps(w2, o.gaps.service, s);
    ServiceKeeps(w3, s, o);
  }

  lemma ServiceKeeps(w: World, s: Source, o: Oracle)
    requires ReceiversOK(w)
    ensures ReceiversOK(AddService(w, s, o))
  {
  }

  /** Neither GitLab nor the ledger has anything to do with receivers. */
  lemma SameObjects(w: World, w': World)
    requires ReceiversOK(w) && w'.store == w.store && w'.kube.deployments == w.kube.deployments
    requires w'.uids == w.uids && w'.namespace == w.namespace && w'.name == w.name
    ensures ReceiversOK(w')
  {
  }

  lemma RegisterReceivers(w: World, s: Source, o: Oracle)
    requires ReceiversOK(w)
    ensures ReceiversOK(RegisterHook(w, s, o).world)
  {
    hide ReceiversOK, CreateWebhook, F.Add, ChooseService, EnvSteps;
    StepsReceivers(w, o.gaps.services);
    var s1 := s.(finalizers := F.Add(s.finalizers));
    var w1 := EnvSteps(w, o.gaps.services);
    StepsReceivers(w1, o.gaps.hook);
    var svc := ChooseService(w1.kube.services, s1);
    if svc.Some? && svc.value.ingress != [] && svc.value.nodePorts != [] {
      var w2, domain := EnvSteps(w1, o.gaps.hook), svc.value.ingress[0] + ":" + Itoa(svc.value.nodePorts[0]);
      CreateTouches(w2, s1, domain, o);
      SameObjects(w2, CreateWebhook(w2, s1, domain, o).world);
    }
  }

  lemma FinalizeReceivers(w: World, s: Source, o: Oracle)
    requires ReceiversOK(w)
    ensures ReceiversOK(Finalize(w, s, o).world)
  {
    hide ReceiversOK, AddressOf, Delete, F.Remove, EnvSteps;
    StepsReceivers(w, o.gaps.hook);
    var w1 := EnvSteps(w, o.gaps.hook);
    SameObjects(w1, DeleteWebhook(w1, s.(finalizers := F.Remove(s.finalizers)), o).world);
  }

  lemma BodyReceivers(w: World, original: Source, o: Oracle)
    requires ReceiversOK(w) && w.store.cache == Some(original)
    ensures ReceiversOK(Body(w, original, o).world)
  {
    hide ReceiversOK, Finalize, MakeChildren, RegisterHook, SettleStatus, HasReceiver;
    if original.deleting {
      FinalizeReceivers(w, original, o);
    } else {
      var s1 := original.(status := SettleStatus(original.spec, original.status, o).status);
      CachedIsOurs(w, original, s1);
      OursSteps(w, o.gaps.list, s1);
      var w1 := EnvSteps(w, o.gaps.list);
      OursIsOK(w1, s1);
      if !HasReceiver(w1.kube.deployments, s1) { ChildrenReceivers(w1, s1, o); }
      RegisterReceivers(w1, s1, o);
    }
  }

  lemma OursIsOK(w: World, s: Source)
    requires OursIn(w, s)
    ensures ReceiversOK(w)
  {
  }

  lemma CachedIsOurs(w: World, original: Source, s: Source)
    requires ReceiversOK(w) && w.store.cache == Some(original) && s == original.(status := s.status)
    ensures OursIn(w, s)
  {
  }

  // ---------- Writes ----------

  /** Writes do not rename anything. */
  lemma InPlaceReceivers(w: World, p: Source)
    requires ReceiversOK(w) && w.store.cache.Some? && p == w.store.cache.value.(status := p.status, finalizers := p.finalizers)
    ensures ReceiversOK(w.(store := w.store.(cache := Some(p))))
  {
  }

  lemma ApiReceivers(w: World, p: Source, o: Oracle)
    requires ReceiversOK(w)
    ensures ReceiversOK(w.(store := ApiUpdateStatus(w.store, p, o.updateStatus).0))
    ensures ReceiversOK(w.(store := ApiUpdate(w.store, p, o.update).0))
  {
    assert Server(w.store) == w.store.log[|w.store.log| - 1];
  }

  lemma WriteStatusReceivers(w: World, original: Source, s: Source, o: Oracle)
    requires ReceiversOK(w)
    ensures ReceiversOK(WriteStatus(w, original, s, o).0)
  {
    hide ReceiversOK, ApiUpdateStatus;
    StepsReceivers(w, o.gaps.status);
    var w1 := EnvSteps(w, o.gaps.status);
    if w1.store.cache.Some? {
      var p := w1.store.cache.value.(status := s.status);
      InPlaceReceivers(w1, p);
      StepsReceivers(w1.(store := w1.store.(cache := Some(p))), o.gaps.statusCall);
      ApiReceivers(EnvSteps(w1.(store := w1.store.(cache := Some(p))), o.gaps.statusCall), p, o);
    }
  }

  lemma WriteFinalizersReceivers(w: World, original: Source, s: Source, o: Oracle)
    requires ReceiversOK(w)
    ensures ReceiversOK(WriteFinalizers(w, original, s, o).0)
  {
    hide ReceiversOK, ApiUpdate;
    StepsReceivers(w, o.gaps.update);
    var w1 := EnvSteps(w, o.gaps.update);
    if w1.store.cache.Some? {
      var p := w1.store.cache.value.(finalizers := s.finalizers);
      InPlaceReceivers(w1, p);
      StepsReceivers(w1.(store := w1.store.(cache := Some(p))), o.gaps.updateCall);
      ApiReceivers(EnvSteps(w1.(store := w1.store.(cache := Some(p))), o.gaps.updateCall), p, o);
    }
  }

  lemma RestartReceivers(w: World)
    requires ReceiversOK(w)
    ensures ReceiversOK(Restarted(w))
  {
    assert Server(w.store) == w.store.log[|w.store.log| - 1];
  }

  lemma RunReceivers(w: World, o: Oracle)
    requires ReceiversOK(w)
    ensures ReceiversOK(RunOnce(w, o).0)
  {
    hide ReceiversOK, Body, WriteStatus, WriteFinalizers, Restarted;
    if !o.listerFails && w.store.cache.Some? {
      var original := w.store.cache.value;
      BodyReceivers(w, original, o);
      var b := Body(w, original, o);
      RestartReceivers(b.world);
      WriteStatusReceivers(b.world, original, b.source, o);
      WriteFinalizersReceivers(WriteStatus(b.world, original, b.source, o).0, original, b.source, o);
    }
  }

  lemma ActReceivers(w: World, a: Action)
    requires ReceiversOK(w)
    ensures ReceiversOK(Act(w, a))
  {
    match a
    case Environment(e) => StepReceivers(w, e);
    case Restart => RestartReceivers(w);
    case Run(o) =>
      hide RunOnce;
      RunReceivers(w, o);
      SameObjects(RunOnce(w, o).0, Reconcile(w, o).0);
  }

  lemma {:induction false} ExecReceivers(w: World, actions: seq<Action>)
    requires ReceiversOK(w)
    ensures ReceiversOK(Exec(w, actions))
    decreases |actions|
  {
    if actions != [] {
      ActReceivers(w, actions[0]);
      ExecReceivers(Act(w, actions[0]), actions[1..]);
    }
  }

  /**
   Over every history, failures and lost replies of `Create` included, each UID that a source of this
   name ever had controls at most one Deployment, and the lookup for that UID finds it if it exists;
   Services never outnumber the Deployments they came with.
   */
  lemma AtMostOneReceiver(w0: World, actions: seq<Action>, uid: nat)
    requires Initial(w0) && uid in Exec(w0, actions).uids
    ensures var w := Exec(w0, actions);
      && (forall i, j :: 0 <= i < j < |w.kube.deployments| ==> !(OwnedBy(w.kube.deployments[i], uid) && OwnedBy(w.kube.deployments[j], uid)))
      && w.ledger.services <= w.ledger.receivers
    ensures forall s :: Named(Exec(w0, actions), s) && s.uid == uid ==>
      (HasReceiver(Exec(w0, actions).kube.deployments, s) <==> exists d :: d in Exec(w0, actions).kube.deployments && OwnedBy(d, uid))
  {
    ExecReceivers(w0, actions);
    HistoryBooks(w0, actions);
    var w := Exec(w0, actions);
    forall s | Named(w, s) && s.uid == uid
      ensures HasReceiver(w.kube.deployments, s) <==> exists d :: d in w.kube.deployments && OwnedBy(d, uid)
    {
      LookupIsComplete(w, s);
    }
  }
}
