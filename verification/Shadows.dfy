/**
 What one source's run does to the rest of the world, as seen by another source: nothing but events of
 the environment. `Shadowed` is the relation; it composes, and every part of a run satisfies it.
 */
module Shadows {
  import opened Outcomes
  import opened Numerals
  import opened Sources
  import opened ProjectUrls
  import opened Hooks
  import opened Resources
  import opened Protocol
  import opened Invariants
  import opened Receivers
  import opened Bookkeeping
  import F = Finalizers

  /** Events that touch no source. */
  predicate Shared(e: Event) {
    e.AddDeployment? || e.RemoveDeployment? || e.ServicesBecome? || e.OtherHook? || e.RemoveHook?
  }

  ghost predicate AllShared(es: seq<Event>) { forall e :: e in es ==> Shared(e) }

  /** Another source, with the UIDs `others`, sees the step from `w` to `w'` as the events `es`. */
  ghost predicate SeenAs(w: World, w': World, es: seq<Event>, others: set<nat>) {
    forall v: World :: v.kube == w.kube && v.gitlab == w.gitlab && v.uids == others
      ==> EnvSteps(v, es) == v.(kube := w'.kube, gitlab := w'.gitlab)
  }

  ghost predicate Shadowed(w: World, w': World, others: set<nat>) {
    exists es :: AllShared(es) && SeenAs(w, w', es, others)
  }

  lemma {:induction false} EnvAppend(w: World, a: seq<Event>, b: seq<Event>)
    ensures EnvSteps(w, a + b) == EnvSteps(EnvSteps(w, a), b)
    decreases |a|
  {
    if a == [] {
      assert a + b == b;
    } else {
      assert (a + b)[1..] == a[1..] + b;
      EnvAppend(EnvStep(w, a[0]), a[1..], b);
    }
  }

  lemma ShadowedCompose(a: World, b: World, c: World, others: set<nat>)
    requires Shadowed(a, b, others) && Shadowed(b, c, others)
    ensures Shadowed(a, c, others)
  {
    hide EnvSteps, Shared;
    var e1 :| AllShared(e1) && SeenAs(a, b, e1, others);
    var e2 :| AllShared(e2) && SeenAs(b, c, e2, others);
    forall v: World | v.kube == a.kube && v.gitlab == a.gitlab && v.uids == others
      ensures EnvSteps(v, e1 + e2) == v.(kube := c.kube, gitlab := c.gitlab)
    {
      EnvAppend(v, e1, e2);
      assert EnvSteps(v.(kube := b.kube, gitlab := b.gitlab), e2) == v.(kube := c.kube, gitlab := c.gitlab);
    }
    assert AllShared(e1 + e2) && SeenAs(a, c, e1 + e2, others);
  }

  /** Nothing shared has changed. */
  lemma ShadowedSame(w: World, w': World, others: set<nat>)
    requires w'.kube == w.kube && w'.gitlab == w.gitlab
    ensures Shadowed(w, w', others)
  {
    assert AllShared([]) && SeenAs(w, w', [], others);
  }

  /** One shared event. */
  lemma ShadowedOne(w: World, w': World, e: Event, others: set<nat>)
    requires Shared(e) && w'.gitlab == GitLabEvent(w.gitlab, e)
    requires forall v: World :: v.kube == w.kube && v.uids == others ==> KubeEvent(v, e) == w'.kube
    ensures Shadowed(w, w', others)
  {
    var es := [e];
    forall v: World | v.kube == w.kube && v.gitlab == w.gitlab && v.uids == others
      ensures EnvSteps(v, es) == v.(kube := w'.kube, gitlab := w'.gitlab)
    {
      assert es[1..] == [];
      assert EnvSteps(EnvStep(v, e), []) == EnvStep(v, e);
    }
    assert AllShared(es) && SeenAs(w, w', es, others);
  }

  // ---------- The environment of the run ----------

  /** The event neither gives this source a UID of the others nor makes a Deployment for them. */
  predicate Apart(e: Event, others: set<nat>) {
    match e
    case CreateSource(uid, _, _) => uid !in others
    case AddDeployment(d) => d.controller.Some? ==> d.controller.value !in others
    case _ => true
  }

  predicate AllApart(es: seq<Event>, others: set<nat>) { forall e :: e in es ==> Apart(e, others) }

  ghost predicate Separate(w: World, others: set<nat>) { w.uids !! others && ValidGitLab(w.gitlab) && w.store.log != [] && AllNamed(w) }

  lemma StepShadow(w: World, e: Event, others: set<nat>)
    requires Separate(w, others) && Apart(e, others)
    ensures Separate(EnvStep(w, e), others) && Shadowed(w, EnvStep(w, e), others)
    ensures w.gitlab.issued <= EnvStep(w, e).gitlab.issued
  {
    var w' := EnvStep(w, e);
    GitLabEventFacts(w.gitlab, e);
    StepNames(w, e);
    if Shared(e) && !(e.AddDeployment? && e.deployment.controller.Some? && e.deployment.controller.value in w.uids) {
      ShadowedOne(w, w', e, others);
    } else {
      ShadowedSame(w, w', others);
    }
  }

  lemma {:induction false} StepsShadow(w: World, es: seq<Event>, others: set<nat>)
    requires Separate(w, others) && AllApart(es, others)
    ensures Separate(EnvSteps(w, es), others) && Shadowed(w, EnvSteps(w, es), others)
    ensures w.gitlab.issued <= EnvSteps(w, es).gitlab.issued
    decreases |es|
  {
    hide Shadowed, Separate;
    if es == [] {
      ShadowedSame(w, w, others);
    } else {
      var w1 := EnvStep(w, es[0]);
      StepShadow(w, es[0], others);
      StepsShadow(w1, es[1..], others);
      ShadowedCompose(w, w1, EnvSteps(w1, es[1..]), others);
    }
  }

  predicate GapsApart(g: Gaps, others: set<nat>) {
    && AllApart(g.list, others) && AllApart(g.deployment, others) && AllApart(g.service, others)
    && AllApart(g.services, others) && AllApart(g.hook, others) && AllApart(g.status, others)
    && AllApart(g.statusCall, others) && AllApart(g.update, others) && AllApart(g.updateCall, others)
  }

  // ---------- The external calls of the run ----------

  /** The same source, and every hook it has booked since `w0` got an ID that was new then. */
  ghost predicate Issues(w0: World, w: World) {
    && w.namespace == w0.namespace && w.name == w0.name
    && w0.gitlab.issued <= w.gitlab.issued && w0.uids <= w.uids
    && w.ledger.created <= w0.ledger.created + (w.gitlab.issued - w0.gitlab.issued)
  }

  /** A step of the run that started in `w0`: still apart, and seen by others as events. */
  ghost predicate Apace(w0: World, w: World, others: set<nat>) {
    Separate(w, others) && Shadowed(w0, w, others) && Issues(w0, w)
  }

  lemma ApaceStart(w: World, others: set<nat>)
    requires Separate(w, others)
    ensures Apace(w, w, others)
  {
    ShadowedSame(w, w, others);
  }

  lemma ApaceEnv(w0: World, w: World, es: seq<Event>, others: set<nat>)
    requires Apace(w0, w, others) && AllApart(es, others)
    ensures Apace(w0, EnvSteps(w, es), others)
  {
    hide Shadowed, Separate;
    StepsShadow(w, es, others);
    EnvStepsKeep(w, es);
    ShadowedCompose(w0, w, EnvSteps(w, es), others);
  }

  lemma ApaceNext(w0: World, w: World, w': World, others: set<nat>)
    requires Apace(w0, w, others) && Separate(w', others) && Shadowed(w, w', others) && Issues(w, w')
    ensures Apace(w0, w', others)
  {
    hide Shadowed, Separate;
    ShadowedCompose(w0, w, w', others);
  }

  /** A change of the store or the ledger only. */
  lemma ApaceAlone(w0: World, w: World, w': World, others: set<nat>)
    requires Apace(w0, w, others) && w'.kube == w.kube && w'.gitlab == w.gitlab && w'.uids == w.uids
    requires w'.namespace == w.namespace && w'.name == w.name && w'.ledger.created == w.ledger.created && w'.store.log != [] && AllNamed(w')
    ensures Apace(w0, w', others)
  {
    ShadowedSame(w, w', others);
    ApaceNext(w0, w, w', others);
  }

  lemma ApaceReceiver(w0: World, w: World, s: Source, o: Oracle, others: set<nat>)
    requires Apace(w0, w, others) && s.uid in w.uids
    ensures Apace(w0, AddReceiver(w, s, o), others)
  {
    var w' := AddReceiver(w, s, o);
    if o.createDeployment.Refused? {
    } else {
      ShadowedOne(w, w', AddDeployment(Owned(MakeReceiveAdapter(s, o.image), s, o.deploymentSuffix)), others);
      ApaceNext(w0, w, w', others);
    }
  }

  lemma ApaceService(w0: World, w: World, s: Source, o: Oracle, others: set<nat>)
    requires Apace(w0, w, others)
    ensures Apace(w0, AddService(w, s, o), others)
  {
    var w' := AddService(w, s, o);
    ShadowedOne(w, w', ServicesBecome(w'.kube.services), others);
    ApaceNext(w0, w, w', others);
  }

  lemma ApaceCreate(w0: World, w: World, s: Source, domain: string, o: Oracle, others: set<nat>)
    requires Apace(w0, w, others)
    ensures Apace(w0, CreateWebhook(w, s, domain, o).world, others)
  {
    hide HookConfigOf, AddressOf;
    var w' := CreateWebhook(w, s, domain, o).world;
    if w'.gitlab != w.gitlab {
      var a := AddressOf(s.spec.projectURL).value;
      AddFacts(w.gitlab, a, o.hookId, HookConfigOf(s, domain, o), o.addHook);
      ShadowedOne(w, w', OtherHook(Hook(o.hookId, a, HookConfigOf(s, domain, o))), others);
      ApaceNext(w0, w, w', others);
    } else {
      ApaceAlone(w0, w, w', others);
    }
  }

  lemma {:induction false} WithoutIsRemove(hooks: seq<Hook>, a: Address, id: int)
    requires DistinctIds(hooks) && Hooks.Registered(hooks, a, id)
    ensures WithoutHook(hooks, a, id) == RemoveEverywhere(hooks, id)
  {
    if hooks != [] {
      assert hooks == [hooks[0]] + hooks[1..];
      if hooks[0].id == id {
        forall h | h in hooks[1..] ensures h.id != id {
          var i :| 0 <= i < |hooks[1..]| && hooks[1..][i] == h;
          assert hooks[i + 1].id != hooks[0].id;
        }
        assert hooks[0].address == a;
        NothingToRemove(hooks[1..], a, id);
      } else {
        WithoutIsRemove(hooks[1..], a, id);
      }
    }
  }

  lemma {:induction false} NothingToRemove(hooks: seq<Hook>, a: Address, id: int)
    requires forall h :: h in hooks ==> h.id != id
    ensures WithoutHook(hooks, a, id) == hooks && RemoveEverywhere(hooks, id) == hooks
  {
    if hooks != [] {
      assert hooks == [hooks[0]] + hooks[1..];
      assert hooks[0] in hooks;
      NothingToRemove(hooks[1..], a, id);
    }
  }

  lemma ApaceDelete(w0: World, w: World, s: Source, o: Oracle, others: set<nat>)
    requires Apace(w0, w, others)
    ensures Apace(w0, DeleteWebhook(w, s, o).world, others)
  {
    hide AddressOf;
    var w' := DeleteWebhook(w, s, o).world;
    if w'.gitlab != w.gitlab {
      var a, id := AddressOf(s.spec.projectURL).value, Atoi(KeyOf(s)).value;
      DeleteFacts(w.gitlab, a, KeyOf(s), o.listHooksFails, o.deleteHook);
      WithoutIsRemove(w.gitlab.hooks, a, id);
      ShadowedOne(w, w', RemoveHook(id), others);
      ApaceNext(w0, w, w', others);
    } else {
      ApaceAlone(w0, w, w', others);
    }
  }

  // ---------- The body of the run ----------

  lemma ApaceChildren(w0: World, w: World, s: Source, o: Oracle, others: set<nat>)
    requires Apace(w0, w, others) && s.uid in w.uids && GapsApart(o.gaps, others)
    ensures Apace(w0, MakeChildren(w, s, o).world, others)
  {
    hide Apace, AddReceiver, AddService, AllApart;
    var w1 := EnvSteps(w, o.gaps.deployment);
    ApaceEnv(w0, w, o.gaps.deployment, others);
    EnvStepsKeep(w, o.gaps.deployment);
    ApaceReceiver(w0, w1, s, o, others);
    var w2 := AddReceiver(w1, s, o);
    ApaceEnv(w0, w2, o.gaps.service, others);
    ApaceService(w0, EnvSteps(w2, o.gaps.service), s, o, others);
  }

  lemma ApaceRegister(w0: World, w: World, s: Source, o: Oracle, others: set<nat>)
    requires Apace(w0, w, others) && GapsApart(o.gaps, others)
    ensures Apace(w0, RegisterHook(w, s, o).world, others)
  {
    hide Apace, CreateWebhook, F.Add, ChooseService, EnvSteps, AllApart;
    ApaceEnv(w0, w, o.gaps.services, others);
    var s1 := s.(finalizers := F.Add(s.finalizers));
    var w1 := EnvSteps(w, o.gaps.services);
    ApaceEnv(w0, w1, o.gaps.hook, others);
    var svc := ChooseService(w1.kube.services, s1);
    if svc.Some? && svc.value.ingress != [] && svc.value.nodePorts != [] {
      ApaceCreate(w0, EnvSteps(w1, o.gaps.hook), s1, svc.value.ingress[0] + ":" + Itoa(svc.value.nodePorts[0]), o, others);
    }
  }

  lemma ApaceFinalize(w0: World, w: World, s: Source, o: Oracle, others: set<nat>)
    requires Apace(w0, w, others) && GapsApart(o.gaps, others)
    ensures Apace(w0, Finalize(w, s, o).world, others)
  {
    hide Apace, DeleteWebhook, F.Remove, EnvSteps, AllApart;
    ApaceEnv(w0, w, o.gaps.hook, others);
    ApaceDelete(w0, EnvSteps(w, o.gaps.hook), s.(finalizers := F.Remove(s.finalizers)), o, others);
  }

  lemma ApaceBody(w: World, original: Source, o: Oracle, others: set<nat>)
    requires Separate(w, others) && w.store.cache == Some(original) && GapsApart(o.gaps, others)
    ensures Apace(w, Body(w, original, o).world, others)
  {
    hide Apace, SettleStatus, MakeChildren, RegisterHook, Finalize, HasReceiver, AllApart;
    ApaceStart(w, others);
    if original.deleting {
      ApaceFinalize(w, w, original, o, others);
    } else {
      var s1 := original.(status := SettleStatus(original.spec, original.status, o).status);
      ApaceEnv(w, w, o.gaps.list, others);
      var w1 := EnvSteps(w, o.gaps.list);
      EnvStepsKeep(w, o.gaps.list);
      assert s1.uid in w1.uids;
      ApaceChildren(w, w1, s1, o, others);
      ApaceRegister(w, w1, s1, o, others);
    }
  }

  // ---------- The writes of the run ----------

  lemma NamesInPlace(w: World, p: Source)
    requires AllNamed(w) && w.store.cache.Some? && p == w.store.cache.value.(status := p.status, finalizers := p.finalizers)
    ensures AllNamed(w.(store := w.store.(cache := Some(p))))
  {
  }

  lemma NamesApi(w: World, p: Source, o: Oracle)
    requires w.store.log != [] && AllNamed(w)
    ensures ApiUpdateStatus(w.store, p, o.updateStatus).0.log != [] && AllNamed(w.(store := ApiUpdateStatus(w.store, p, o.updateStatus).0))
    ensures ApiUpdate(w.store, p, o.update).0.log != [] && AllNamed(w.(store := ApiUpdate(w.store, p, o.update).0))
  {
    assert Server(w.store) == w.store.log[|w.store.log| - 1];
  }

  lemma ApaceInPlace(w0: World, w: World, p: Source, others: set<nat>)
    requires Apace(w0, w, others) && w.store.cache.Some? && p == w.store.cache.value.(status := p.status, finalizers := p.finalizers)
    ensures Apace(w0, w.(store := w.store.(cache := Some(p))), others)
  {
    NamesInPlace(w, p);
    ApaceAlone(w0, w, w.(store := w.store.(cache := Some(p))), others);
  }

  lemma ApaceApi(w0: World, w: World, p: Source, o: Oracle, others: set<nat>)
    requires Apace(w0, w, others)
    ensures Apace(w0, w.(store := ApiUpdateStatus(w.store, p, o.updateStatus).0), others)
    ensures Apace(w0, w.(store := ApiUpdate(w.store, p, o.update).0), others)
  {
    NamesApi(w, p, o);
    hide ApiUpdateStatus, ApiUpdate, AllNamed;
    ApaceAlone(w0, w, w.(store := ApiUpdateStatus(w.store, p, o.updateStatus).0), others);
    ApaceAlone(w0, w, w.(store := ApiUpdate(w.store, p, o.update).0), others);
  }

  lemma ApaceStatus(w0: World, w: World, original: Source, s: Source, o: Oracle, others: set<nat>)
    requires Apace(w0, w, others) && GapsApart(o.gaps, others)
    ensures Apace(w0, WriteStatus(w, original, s, o).0, others)
  {
    hide Apace, ApiUpdateStatus, AllApart;
    ApaceEnv(w0, w, o.gaps.status, others);
    var w1 := EnvSteps(w, o.gaps.status);
    if w1.store.cache.Some? {
      var p := w1.store.cache.value.(status := s.status);
      var w2 := w1.(store := w1.store.(cache := Some(p)));
      ApaceInPlace(w0, w1, p, others);
      ApaceEnv(w0, w2, o.gaps.statusCall, others);
      ApaceApi(w0, EnvSteps(w2, o.gaps.statusCall), p, o, others);
    }
  }

  lemma ApaceFinalizers(w0: World, w: World, original: Source, s: Source, o: Oracle, others: set<nat>)
    requires Apace(w0, w, others) && GapsApart(o.gaps, others)
    ensures Apace(w0, WriteFinalizers(w, original, s, o).0, others)
  {
    hide Apace, ApiUpdate, AllApart;
    ApaceEnv(w0, w, o.gaps.update, others);
    var w1 := EnvSteps(w, o.gaps.update);
    if w1.store.cache.Some? {
      var p := w1.store.cache.value.(finalizers := s.finalizers);
      var w2 := w1.(store := w1.store.(cache := Some(p)));
      ApaceInPlace(w0, w1, p, others);
      ApaceEnv(w0, w2, o.gaps.updateCall, others);
      ApaceApi(w0, EnvSteps(w2, o.gaps.updateCall), p, o, others);
    }
  }

  lemma ApaceRestart(w0: World, w: World, others: set<nat>)
    requires Apace(w0, w, others)
    ensures Apace(w0, Restarted(w), others)
  {
    assert Server(w.store) == w.store.log[|w.store.log| - 1];
    ApaceAlone(w0, w, Restarted(w), others);
  }

  lemma ApaceRun(w: World, o: Oracle, others: set<nat>)
    requires Separate(w, others) && GapsApart(o.gaps, others)
    ensures Apace(w, RunOnce(w, o).0, others)
  {
    hide Apace, Separate, Body, WriteStatus, WriteFinalizers, Restarted, AllApart;
    ApaceStart(w, others);
    if !o.listerFails && w.store.cache.Some? {
      var original := w.store.cache.value;
      var b := Body(w, original, o);
      ApaceBody(w, original, o, others);
      ApaceRestart(w, b.world, others);
      ApaceStatus(w, b.world, original, b.source, o, others);
      ApaceFinalizers(w, WriteStatus(b.world, original, b.source, o).0, original, b.source, o, others);
    }
  }

  // ---------- One action ----------

  /** The action respects the UIDs of the other sources. */
  predicate ActionApart(a: Action, others: set<nat>) {
    match a
    case Environment(e) => Apart(e, others)
    case Restart => true
    case Run(o) => GapsApart(o.gaps, others)
  }

  /** Whatever a source's action does, another source sees events of the environment only. */
  lemma ActionIsEnvironment(w: World, a: Action, others: set<nat>)
    requires Separate(w, others) && ActionApart(a, others)
    ensures Apace(w, Act(w, a), others)
  {
    hide Apace, Separate, RunOnce, EnvStep, Restarted, AllApart;
    match a
    case Environment(e) =>
      StepShadow(w, e, others);
      ApaceStart(w, others);
      StepUids(w, e);
      ApaceNext(w, w, EnvStep(w, e), others);
    case Restart =>
      ApaceStart(w, others);
      ApaceRestart(w, w, others);
    case Run(o) =>
      ApaceRun(w, o, others);
      ApaceCharged(w, RunOnce(w, o).0, RunOnce(w, o).1, others);
  }

  lemma StepUids(w: World, e: Event)
    ensures w.uids <= EnvStep(w, e).uids && EnvStep(w, e).ledger == w.ledger
    ensures EnvStep(w, e).namespace == w.namespace && EnvStep(w, e).name == w.name
  {
  }

  lemma ApaceCharged(w0: World, w: World, r: Result, others: set<nat>)
    requires Apace(w0, w, others)
    ensures Apace(w0, Charge(w, r), others)
  {
    ApaceAlone(w0, w, Charge(w, r), others);
  }

  lemma NothingToRespect(a: Action)
    ensures ActionApart(a, {})
  {
  }

  /** GitLab's hooks keep their distinct, issued IDs over every history. */
  lemma {:induction false} ExecSeparate(w: World, actions: seq<Action>)
    requires Separate(w, {})
    ensures Separate(Exec(w, actions), {})
    decreases |actions|
  {
    hide Separate, Shadowed, Issues, Act;
    if actions != [] {
      NothingToRespect(actions[0]);
      ActionIsEnvironment(w, actions[0], {});
      ExecSeparate(Act(w, actions[0]), actions[1..]);
    }
  }
}
