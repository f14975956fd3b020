/** What a run may book: at most one hook, one Deployment and, only with that Deployment, one Service. */
module Bookkeeping {
  import opened Outcomes
  import opened Numerals
  import opened Settling
  import opened Sources
  import opened ProjectUrls
  import opened Hooks
  import opened Resources
  import opened Protocol
  import F = Finalizers

  lemma {:induction false} EnvStepsKeep(w: World, es: seq<Event>)
    ensures var w' := EnvSteps(w, es); w'.ledger == w.ledger && w'.namespace == w.namespace && w'.name == w.name && w.uids <= w'.uids
    decreases |es|
  {
    if es != [] { EnvStepsKeep(EnvStep(w, es[0]), es[1..]); }
  }

  /** The ledger of a run up to some point; `known` says that the caller of a registration was told its ID. */
  ghost predicate Books(l: Ledger, l': Ledger, failed: bool) {
    && l'.errors == l.errors
    && l.created <= l'.created
    && (l'.lostReplies == l.lostReplies || (l'.lostReplies == l.lostReplies + 1 && failed))
    && l.receivers <= l'.receivers <= l.receivers + 1
    && l.services <= l'.services && l'.services - l.services <= l'.receivers - l.receivers
  }

  /** A registration is booked as lost, or the working copy holds its ID. */
  ghost predicate Told(w: World, b: Step, o: Oracle) {
    b.world.ledger.lostReplies == w.ledger.lostReplies ==> b.source.status.webhookIDKey == Itoa(o.hookId)
  }

  lemma ChildrenBooks(w: World, s: Source, o: Oracle)
    ensures var b := MakeChildren(w, s, o); Books(w.ledger, b.world.ledger, b.result.Failure?) && b.world.ledger.created == w.ledger.created
  {
    EnvStepsKeep(w, o.gaps.deployment);
    var w1 := AddReceiver(EnvSteps(w, o.gaps.deployment), s, o);
    EnvStepsKeep(w1, o.gaps.service);
  }

  lemma CreateBooks(w: World, s: Source, domain: string, o: Oracle)
    ensures var b := CreateWebhook(w, s, domain, o);
      && Books(w.ledger, b.world.ledger, b.result.Failure?) && b.world.ledger.receivers == w.ledger.receivers
      && (b.world.ledger.created != w.ledger.created
          ==> b.world.ledger.created == w.ledger.created + {o.hookId} && Told(w, b, o))
  {
    hide HookConfigOf, AddressOf;
  }

  lemma RegisterBooks(w: World, s: Source, o: Oracle)
    ensures var b := RegisterHook(w, s, o);
      && Books(w.ledger, b.world.ledger, b.result.Failure?) && b.world.ledger.receivers == w.ledger.receivers
      && (b.world.ledger.created != w.ledger.created
          ==> s.status.webhookIDKey == "" && b.world.ledger.created == w.ledger.created + {o.hookId} && Told(w, b, o))
  {
    hide CreateWebhook, F.Add, ChooseService, EnvSteps;
    EnvStepsKeep(w, o.gaps.services);
    var s1 := s.(finalizers := F.Add(s.finalizers));
    var w1 := EnvSteps(w, o.gaps.services);
    EnvStepsKeep(w1, o.gaps.hook);
    var svc := ChooseService(w1.kube.services, s1);
    if svc.Some? && svc.value.ingress != [] && svc.value.nodePorts != [] {
      CreateBooks(EnvSteps(w1, o.gaps.hook), s1, svc.value.ingress[0] + ":" + Itoa(svc.value.nodePorts[0]), o);
    }
  }

  lemma BodyBooks(w: World, original: Source, o: Oracle)
    ensures var b := Body(w, original, o);
      && Books(w.ledger, b.world.ledger, b.result.Failure?)
      && (b.world.ledger.created != w.ledger.created
          ==> !original.deleting && original.status.webhookIDKey == "" && b.world.ledger.created == w.ledger.created + {o.hookId}
              && Told(w, b, o))
  {
    hide MakeChildren, RegisterHook, DeleteWebhook, SettleStatus, HasReceiver;
    if original.deleting {
      FinalizeBooks(w, original, o);
    } else {
      EnvStepsKeep(w, o.gaps.list);
      SettleKeepsKey(original.spec, original.status, o);
      var s1 := original.(status := SettleStatus(original.spec, original.status, o).status);
      ChildrenBooks(EnvSteps(w, o.gaps.list), s1, o);
      RegisterBooks(EnvSteps(w, o.gaps.list), s1, o);
    }
  }

  /** The calls to GitLab change hooks and ledger, and of the working copy the status only. */
  lemma CreateTouches(w: World, s: Source, domain: string, o: Oracle)
    ensures var b := CreateWebhook(w, s, domain, o);
      b.world == w.(gitlab := b.world.gitlab, ledger := b.world.ledger) && b.source == s.(status := b.source.status)
  {
    hide AddressOf, HookConfigOf;
  }

  lemma DeleteTouches(w: World, s: Source, o: Oracle)
    ensures var b := DeleteWebhook(w, s, o);
      b.world == w.(gitlab := b.world.gitlab) && b.source == s.(status := b.source.status)
  {
    hide AddressOf, Delete;
  }

  lemma FinalizeBooks(w: World, original: Source, o: Oracle)
    ensures Finalize(w, original, o).world.ledger == w.ledger
  {
    EnvStepsKeep(w, o.gaps.hook);
  }

  lemma WriteStatusKeeps(w: World, original: Source, s: Source, o: Oracle)
    ensures WriteStatus(w, original, s, o).0.ledger == w.ledger
  {
    EnvStepsKeep(w, o.gaps.status);
    var w1 := EnvSteps(w, o.gaps.status);
    if w1.store.cache.Some? {
      EnvStepsKeep(w1.(store := w1.store.(cache := Some(w1.store.cache.value.(status := s.status)))), o.gaps.statusCall);
    }
  }

  lemma WriteFinalizersKeeps(w: World, original: Source, s: Source, o: Oracle)
    ensures WriteFinalizers(w, original, s, o).0.ledger == w.ledger
  {
    EnvStepsKeep(w, o.gaps.update);
    var w1 := EnvSteps(w, o.gaps.update);
    if w1.store.cache.Some? {
      EnvStepsKeep(w1.(store := w1.store.(cache := Some(w1.store.cache.value.(finalizers := s.finalizers)))), o.gaps.updateCall);
    }
  }

  lemma WriteBackKeeps(w: World, original: Source, s: Source, result: Result, o: Oracle)
    ensures var r := WriteBack(w, original, s, result, o); r.0.ledger == w.ledger && (result.Failure? ==> r.1.Failure?)
  {
    hide WriteStatus, WriteFinalizers;
    WriteStatusKeeps(w, original, s, o);
    WriteFinalizersKeeps(WriteStatus(w, original, s, o).0, original, s, o);
  }

  /**
   One run: a hook is registered only from a live cached object without ID; a lost reply makes the run fail; a
   Service only comes with a Deployment.
   */
  lemma RunBooks(w: World, o: Oracle)
    ensures var r := RunOnce(w, o);
      && Books(w.ledger, r.0.ledger, r.1.Failure?)
      && (r.0.ledger.created != w.ledger.created
          ==> w.store.cache.Some? && !w.store.cache.value.deleting && w.store.cache.value.status.webhookIDKey == ""
              && r.0.ledger.created == w.ledger.created + {o.hookId})
  {
    hide Body, WriteBack;
    if !o.listerFails && w.store.cache.Some? {
      var original := w.store.cache.value;
      var b := Body(w, original, o);
      BodyBooks(w, original, o);
      WriteBackKeeps(b.world, original, b.source, b.result, o);
    }
  }

  lemma ActBooks(w: World, a: Action)
    requires w.ledger.lostReplies <= w.ledger.errors && w.ledger.services <= w.ledger.receivers
    ensures var l := Act(w, a).ledger; l.lostReplies <= l.errors && l.services <= l.receivers && w.ledger.errors <= l.errors
  {
    hide RunOnce;
    if a.Run? { RunBooks(w, a.oracle); }
  }

  /** Over every history: lost replies are among the failed runs, and Services never outnumber Deployments. */
  lemma {:induction false} HistoryBooks(w: World, actions: seq<Action>)
    requires w.ledger.lostReplies <= w.ledger.errors && w.ledger.services <= w.ledger.receivers
    ensures var l := Exec(w, actions).ledger; l.lostReplies <= l.errors && l.services <= l.receivers && w.ledger.errors <= l.errors
    decreases |actions|
  {
    if actions != [] {
      ActBooks(w, actions[0]);
      HistoryBooks(Act(w, actions[0]), actions[1..]);
    }
  }
}
