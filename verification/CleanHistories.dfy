/**
 Histories in which no run returned an error: the cache, every version still to be delivered and the
 server then agree about the hook ID, every finalizer they claim is on the server, and an ID is
 never stored without the finalizer. None of this depends on the project URL or on GitLab.
 */
module CleanHistories {
  import opened Outcomes
  import opened Numerals
  import opened Settling
  import opened Sources
  import opened ProjectUrls
  import opened Hooks
  import opened Resources
  import opened Protocol
  import opened Invariants
  import opened WriteBacks
  import opened HookTheorems
  import opened Bookkeeping
  import F = Finalizers

  /** Whoever claims our finalizer tells the truth. */
  ghost predicate TrueClaims(w: World) {
    && FinalizersOK(w)
    && (w.store.cache.Some? && F.OURS in w.store.cache.value.finalizers ==> ServerHasOurs(w))
  }

  /** Between the writes of a run the ID may be stored ahead of the finalizer. */
  ghost predicate Uniform(w: World, key: string) {
    StoreOK(w.store) && OneKey(w, key) && TrueClaims(w)
  }

  ghost predicate Clean(w: World, key: string) {
    Uniform(w, key) && (key != "" ==> ServerHasOurs(w))
  }

  // ---------- The environment ----------

  /** What the environment does to the store, for any sequence of steps. */
  ghost predicate Grows(w: World, w': World) {
    && StoreOK(w'.store)
    && w.store.log <= w'.store.log && w.store.seen <= w'.store.seen
    && (w'.store.seen == w.store.seen ==> w'.store.cache == w.store.cache)
    && (ServerHasOurs(w) ==> ServerHasOurs(w'))
  }

  lemma GrowsTransitive(a: World, b: World, c: World)
    requires Grows(a, b) && Grows(b, c)
    ensures Grows(a, c)
  {
    assert a.store.log == b.store.log[..|a.store.log|];
    assert b.store.log == c.store.log[..|b.store.log|];
    assert a.store.log == c.store.log[..|a.store.log|];
  }

  lemma StepGrows(w: World, e: Event)
    requires StoreOK(w.store)
    ensures Grows(w, EnvStep(w, e))
  {
  }

  /** A version that the environment may append. */
  ghost predicate Fitting(w: World, entry: Option<Source>) {
    && (ServerHasOurs(w) ==> entry.Some?)
    && (entry.Some? ==>
          && entry.value.rv == |w.store.log|
          && (F.OURS in entry.value.finalizers <==> ServerHasOurs(w))
          && KeyOf(entry.value) == if Server(w.store).Some? then KeyOf(Server(w.store).value) else "")
  }

  lemma StepShape(w: World, e: Event)
    requires StoreOK(w.store)
    ensures var st := StoreEvent(w, e);
      || st == w.store
      || (w.store.seen < |st.log| == |w.store.log| && exists v: nat :: w.store.seen < v < |st.log| && st == w.store.(seen := v, cache := w.store.log[v]))
      || exists entry :: Fitting(w, entry) && st == w.store.(log := w.store.log + [entry]) && (Server(w.store).None? ==> e.CreateSource?)
  {
    var st := StoreEvent(w, e);
    if st.log != w.store.log {
      var entry := st.log[|w.store.log|];
      assert Fitting(w, entry) && st == w.store.(log := w.store.log + [entry]);
    }
  }

  lemma AppendUniform(w: World, w': World, entry: Option<Source>, key: string)
    requires Uniform(w, key) && Fitting(w, entry) && w'.store == w.store.(log := w.store.log + [entry])
    requires Server(w.store).None? ==> key == ""
    ensures Uniform(w', key)
  {
    assert Server(w.store) == w.store.log[|w.store.log| - 1];
  }

  lemma DeliverUniform(w: World, w': World, v: nat, key: string)
    requires Uniform(w, key) && w.store.seen < v < |w.store.log| && w'.store == w.store.(seen := v, cache := w.store.log[v])
    ensures Uniform(w', key)
  {
  }

  /**
   An ID that the finalizer protects survives everything; an unprotected one survives until the object is made
   anew.
   */
  lemma StepUniform(w: World, e: Event, key: string)
    requires Uniform(w, key) && (e.CreateSource? ==> key == "" || ServerHasOurs(w))
    ensures Uniform(EnvStep(w, e), key)
  {
    hide StoreEvent, Fitting, FinalizersOK, OneKey;
    var w' := EnvStep(w, e);
    StepShape(w, e);
    if w'.store.log != w.store.log {
      var entry :| Fitting(w, entry) && w'.store == w.store.(log := w.store.log + [entry]) && (Server(w.store).None? ==> e.CreateSource?);
      AppendUniform(w, w', entry, key);
    } else if w'.store != w.store {
      var v: nat :| w.store.seen < v < |w.store.log| && w'.store == w.store.(seen := v, cache := w.store.log[v]);
      DeliverUniform(w, w', v, key);
    } else {
      SameUniform(w, w', key);
    }
  }

  lemma SameUniform(w: World, w': World, key: string)
    requires Uniform(w, key) && w'.store == w.store
    ensures Uniform(w', key)
  {
  }

  lemma {:induction false} StepsUniform(w: World, es: seq<Event>, key: string)
    requires Uniform(w, key) && (key == "" || ServerHasOurs(w))
    ensures Uniform(EnvSteps(w, es), key) && Grows(w, EnvSteps(w, es))
    decreases |es|
  {
    if es != [] {
      StepUniform(w, es[0], key);
      StepGrows(w, es[0]);
      StepsUniform(EnvStep(w, es[0]), es[1..], key);
      GrowsTransitive(w, EnvStep(w, es[0]), EnvSteps(w, es));
    }
  }

  lemma {:induction false} StepsGrow(w: World, es: seq<Event>)
    requires StoreOK(w.store)
    ensures Grows(w, EnvSteps(w, es))
    decreases |es|
  {
    if es != [] {
      StepGrows(w, es[0]);
      StepsGrow(EnvStep(w, es[0]), es[1..]);
      GrowsTransitive(w, EnvStep(w, es[0]), EnvSteps(w, es));
    }
  }

  /**
   The source was made anew behind the informer's back: it still has to deliver version `n`, in which the
   object is gone. What comes before carries the ID `key`, what comes after carries none.
   */
  ghost predicate Turned(w: World, key: string, n: nat) {
    && StoreOK(w.store) && TrueClaims(w) && !ServerHasOurs(w)
    && w.store.seen < n < |w.store.log| && w.store.log[n].None?
    && (w.store.cache.Some? ==> KeyOf(w.store.cache.value) == key)
    && (forall i :: w.store.seen < i < n && w.store.log[i].Some? ==> KeyOf(w.store.log[i].value) == key)
    && (forall i :: n < i < |w.store.log| && w.store.log[i].Some? ==> KeyOf(w.store.log[i].value) == "")
  }

  /** What becomes of an ID that is stored ahead of the finalizer. */
  ghost predicate Drifted(w: World, key: string) {
    Uniform(w, key) || Uniform(w, "") || exists n :: Turned(w, key, n)
  }

  lemma MadeAnew(w: World, w': World, entry: Option<Source>, key: string)
    requires Uniform(w, key) && Server(w.store).None? && Fitting(w, entry) && w'.store == w.store.(log := w.store.log + [entry])
    ensures Drifted(w', key)
  {
    var n := |w.store.log| - 1;
    if w.store.seen < n {
      assert Turned(w', key, n);
    } else {
      assert Uniform(w', "");
    }
  }

  lemma TurnedStep(w: World, e: Event, key: string, n: nat)
    requires Turned(w, key, n)
    ensures Drifted(EnvStep(w, e), key)
  {
    hide StoreEvent, Fitting, TrueClaims;
    var w' := EnvStep(w, e);
    StepShape(w, e);
    if w'.store.log != w.store.log {
      var entry :| Fitting(w, entry) && w'.store == w.store.(log := w.store.log + [entry]) && (Server(w.store).None? ==> e.CreateSource?);
      TurnedAppend(w, w', entry, key, n);
    } else if w'.store != w.store {
      var v: nat :| w.store.seen < v < |w.store.log| && w'.store == w.store.(seen := v, cache := w.store.log[v]);
      TurnedDeliver(w, w', v, key, n);
    } else {
      TurnedSame(w, w', key, n);
    }
  }

  lemma TurnedAppend(w: World, w': World, entry: Option<Source>, key: string, n: nat)
    requires Turned(w, key, n) && Fitting(w, entry) && w'.store == w.store.(log := w.store.log + [entry])
    ensures Turned(w', key, n)
  {
    assert Server(w.store) == w.store.log[|w.store.log| - 1];
  }

  lemma TurnedDeliver(w: World, w': World, v: nat, key: string, n: nat)
    requires Turned(w, key, n) && w.store.seen < v < |w.store.log| && w'.store == w.store.(seen := v, cache := w.store.log[v])
    ensures if v < n then Turned(w', key, n) else Uniform(w', "")
  {
  }

  lemma TurnedSame(w: World, w': World, key: string, n: nat)
    requires Turned(w, key, n) && w'.store == w.store
    ensures Turned(w', key, n)
  {
  }

  lemma DriftedStep(w: World, e: Event, key: string)
    requires Drifted(w, key)
    ensures Drifted(EnvStep(w, e), key)
  {
    hide StoreEvent, Fitting, Uniform, Turned;
    if Uniform(w, "") {
      StepUniform(w, e, "");
    } else if Uniform(w, key) {
      if e.CreateSource? && !ServerHasOurs(w) {
        CreationDrifts(w, e, key);
      } else {
        StepUniform(w, e, key);
      }
    } else {
      var n :| Turned(w, key, n);
      TurnedStep(w, e, key, n);
    }
  }

  lemma CreationDrifts(w: World, e: Event, key: string)
    requires Uniform(w, key) && e.CreateSource?
    ensures Drifted(EnvStep(w, e), key)
  {
    hide StoreEvent, Fitting, OneKey, TrueClaims;
    var w' := EnvStep(w, e);
    StepShape(w, e);
    if w'.store == w.store {
      SameUniform(w, w', key);
    } else {
      CreationAppends(w, e);
      var entry :| Fitting(w, entry) && w'.store == w.store.(log := w.store.log + [entry]) && (Server(w.store).None? ==> e.CreateSource?);
      MadeAnew(w, w', entry, key);
    }
  }

  lemma CreationAppends(w: World, e: Event)
    requires e.CreateSource? && EnvStep(w, e).store != w.store
    ensures Server(w.store).None? && EnvStep(w, e).store.seen == w.store.seen && |EnvStep(w, e).store.log| == |w.store.log| + 1
  {
  }

  lemma {:induction false} StepsDrift(w: World, es: seq<Event>, key: string)
    requires Drifted(w, key)
    ensures Drifted(EnvSteps(w, es), key)
    decreases |es|
  {
    hide Drifted;
    if es != [] {
      DriftedStep(w, es[0], key);
      StepsDrift(EnvStep(w, es[0]), es[1..], key);
    }
  }

  /** What the body of a run keeps. */
  ghost predicate Carried(w: World, w': World, key: string) {
    Clean(w', key) && Grows(w, w')
  }

  lemma CarriedEnv(w: World, w1: World, es: seq<Event>, key: string)
    requires Carried(w, w1, key)
    ensures Carried(w, EnvSteps(w1, es), key)
  {
    StepsUniform(w1, es, key);
    GrowsTransitive(w, w1, EnvSteps(w1, es));
  }

  lemma CarriedStore(w: World, w1: World, w2: World, key: string)
    requires Carried(w, w1, key) && w2.store == w1.store
    ensures Carried(w, w2, key)
  {
  }

  // ---------- The body ----------

  /** What the body makes of the working copy. */
  ghost predicate CopyShape(original: Source, b: Step) {
    var s := b.source;
    if original.deleting
    then s.finalizers == F.Remove(original.finalizers) && (KeyOf(s) != "" ==> !b.result.Success?)
    else || (KeyOf(s) == KeyOf(original) && (s.finalizers == original.finalizers || s.finalizers == F.Add(original.finalizers)))
         || (KeyOf(original) == "" && s.finalizers == F.Add(original.finalizers))
  }

  lemma ChildrenClean(w: World, w1: World, original: Source, s: Source, o: Oracle, key: string)
    requires Carried(w, w1, key) && !original.deleting && s == original.(status := s.status) && KeyOf(s) == KeyOf(original)
    ensures var b := MakeChildren(w1, s, o); Carried(w, b.world, key) && CopyShape(original, b)
  {
    hide Clean, Grows, EnvSteps;
    CarriedEnv(w, w1, o.gaps.deployment, key);
    var w2 := EnvSteps(w1, o.gaps.deployment);
    var w3 := AddReceiver(w2, s, o);
    CarriedStore(w, w2, w3, key);
    if o.createDeployment.Done? {
      CarriedEnv(w, w3, o.gaps.service, key);
      CarriedStore(w, EnvSteps(w3, o.gaps.service), AddService(EnvSteps(w3, o.gaps.service), s, o), key);
    }
  }

  lemma RegisterClean(w: World, w1: World, original: Source, s: Source, o: Oracle, key: string)
    requires Carried(w, w1, key) && !original.deleting && s == original.(status := s.status) && KeyOf(s) == KeyOf(original)
    ensures var b := RegisterHook(w1, s, o); Carried(w, b.world, key) && CopyShape(original, b)
  {
    hide Clean, Grows, EnvSteps, CreateWebhook, F.Add, ChooseService;
    var s1 := s.(finalizers := F.Add(s.finalizers));
    CarriedEnv(w, w1, o.gaps.services, key);
    var w2 := EnvSteps(w1, o.gaps.services);
    CarriedEnv(w, w2, o.gaps.hook, key);
    var svc := ChooseService(w2.kube.services, s1);
    if svc.Some? && svc.value.ingress != [] && svc.value.nodePorts != [] {
      var w3, domain := EnvSteps(w2, o.gaps.hook), svc.value.ingress[0] + ":" + Itoa(svc.value.nodePorts[0]);
      CreateTouches(w3, s1, domain, o);
      CarriedStore(w, w3, CreateWebhook(w3, s1, domain, o).world, key);
    }
  }

  lemma FinalizeClean(w: World, original: Source, o: Oracle, key: string)
    requires Clean(w, key) && original.deleting
    ensures var b := Finalize(w, original, o); Carried(w, b.world, key) && CopyShape(original, b)
  {
    hide AddressOf, Clean, Grows, EnvSteps, Carried, Delete, F.Remove;
    StartCarried(w, key);
    CarriedEnv(w, w, o.gaps.hook, key);
    var w1 := EnvSteps(w, o.gaps.hook);
    var s1 := original.(finalizers := F.Remove(original.finalizers));
    CarriedStore(w, w1, DeleteWebhook(w1, s1, o).world, key);
  }

  lemma BodyClean(w: World, original: Source, o: Oracle, key: string)
    requires Clean(w, key)
    ensures var b := Body(w, original, o); Carried(w, b.world, key) && CopyShape(original, b)
  {
    hide Clean, MakeChildren, RegisterHook, Finalize, SettleStatus, HasReceiver, EnvSteps;
    if original.deleting {
      FinalizeClean(w, original, o, key);
    } else {
      SettleKeepsKey(original.spec, original.status, o);
      var s1 := original.(status := SettleStatus(original.spec, original.status, o).status);
      StartCarried(w, key);
      CarriedEnv(w, w, o.gaps.list, key);
      ChildrenClean(w, EnvSteps(w, o.gaps.list), original, s1, o, key);
      RegisterClean(w, EnvSteps(w, o.gaps.list), original, s1, o, key);
    }
  }

  lemma StartCarried(w: World, key: string)
    requires Clean(w, key)
    ensures Carried(w, w, key)
  {
  }

  // ---------- The writes ----------

  /** An accepted call is based on the current version, and the environment has left the store alone meanwhile. */
  lemma CallAttached(w: World, w1: World, p1: Source)
    requires StoreOK(w.store) && w.store.cache.Some? && p1 == w.store.cache.value.(status := p1.status, finalizers := p1.finalizers)
    requires Grows(InPlace(w, p1), w1) && Server(w1.store).Some? && p1.rv == Server(w1.store).value.rv
    ensures w1.store == InPlace(w, p1).store && w.store.seen == |w.store.log| - 1
  {
    assert p1.rv == w.store.seen;
    assert Server(w1.store).value.rv == |w1.store.log| - 1;
    assert w.store.log == w1.store.log[..|w.store.log|];
  }

  lemma StatusCallClean(w: World, s: Source, key: string, o: Oracle)
    requires Uniform(w, key) && w.store.cache.Some? && w.store.cache.value.status != s.status
    requires UpdateStatus(w, s, o).1
    ensures var w' := UpdateStatus(w, s, o).0; Uniform(w', KeyOf(s)) && (ServerHasOurs(w') <==> ServerHasOurs(w))
  {
    var p1 := w.store.cache.value.(status := s.status);
    var w0 := InPlace(w, p1);
    StepsGrow(w0, o.gaps.statusCall);
    var w1 := EnvSteps(w0, o.gaps.statusCall);
    CallAttached(w, w1, p1);
    assert Server(w.store) == w.store.log[|w.store.log| - 1];
  }

  lemma WriteStatusClean(w: World, original: Source, s: Source, o: Oracle)
    requires Clean(w, KeyOf(original)) && WriteStatus(w, original, s, o).1
    ensures var w' := WriteStatus(w, original, s, o).0; Uniform(w', KeyOf(s)) && (ServerHasOurs(w) ==> ServerHasOurs(w'))
  {
    StepsUniform(w, o.gaps.status, KeyOf(original));
    var w1 := EnvSteps(w, o.gaps.status);
    if original.status != s.status && w1.store.cache.Some? && w1.store.cache.value.status != s.status {
      hide Uniform, UpdateStatus, ServerHasOurs;
      StatusCallClean(w1, s, KeyOf(original), o);
    }
  }

  /** The store after an accepted `Update` of the cached object based on the current version. */
  ghost predicate Updated(w: World, w': World, p1: Source) {
    && Server(w.store).Some? && w.store.seen == |w.store.log| - 1
    && ((w'.store == InPlace(w, p1).store && Server(w.store).value.finalizers == p1.finalizers)
        || exists entry :: w'.store == InPlace(w, p1).store.(log := w.store.log + [entry])
             && ((entry == None && p1.finalizers == [])
                 || entry == Some(Server(w.store).value.(finalizers := p1.finalizers, spec := p1.spec, rv := |w.store.log|))))
  }

  lemma UpdateAccepted(w: World, s: Source, o: Oracle) returns (p1: Source)
    requires StoreOK(w.store) && w.store.cache.Some? && w.store.cache.value.finalizers != s.finalizers && Update(w, s, o).1
    ensures p1 == w.store.cache.value.(finalizers := s.finalizers) && Updated(w, Update(w, s, o).0, p1)
  {
    p1 := w.store.cache.value.(finalizers := s.finalizers);
    var w0 := InPlace(w, p1);
    StepsGrow(w0, o.gaps.updateCall);
    var w1 := EnvSteps(w0, o.gaps.updateCall);
    CallAttached(w, w1, p1);
    var w' := Update(w, s, o).0;
    if w'.store != w0.store {
      assert w'.store == w0.store.(log := w.store.log + [w'.store.log[|w.store.log|]]);
    }
  }

  lemma UpdatedClean(w: World, w': World, p1: Source, key: string)
    requires Uniform(w, key) && w.store.cache.Some? && p1 == w.store.cache.value.(finalizers := p1.finalizers)
    requires Updated(w, w', p1) && (F.OURS !in p1.finalizers ==> key == "")
    ensures Clean(w', key)
  {
    assert Server(w.store) == w.store.log[|w.store.log| - 1];
  }

  /**
   The finalizer write of a run that ends without error. If the source was made anew, it was delivered: an
   accepted call is based on the current version.
   */
  lemma WriteFinalizersClean(w: World, original: Source, s: Source, o: Oracle) returns (key: string)
    requires Uniform(w, KeyOf(s)) && WriteFinalizers(w, original, s, o).1
    requires if original.finalizers == s.finalizers then KeyOf(s) != "" ==> ServerHasOurs(w) else F.OURS !in s.finalizers ==> KeyOf(s) == ""
    ensures Clean(WriteFinalizers(w, original, s, o).0, key) && key in {KeyOf(s), ""}
  {
    hide Update, Uniform;
    key := KeyOf(s);
    var w1 := EnvSteps(w, o.gaps.update);
    if KeyOf(s) == "" || ServerHasOurs(w) {
      StepsUniform(w, o.gaps.update, KeyOf(s));
      if original.finalizers == s.finalizers {
        StepsHold(w, o.gaps.update, KeyOf(s));
      } else {
        UpdateClean(w1, s, o, KeyOf(s));
      }
    } else {
      StepsDrift(w, o.gaps.update, KeyOf(s));
      key := DriftedUpdate(w1, s, o);
    }
  }

  lemma StepsHold(w: World, es: seq<Event>, key: string)
    requires Uniform(w, key) && (key == "" || ServerHasOurs(w))
    ensures Clean(EnvSteps(w, es), key)
  {
    StepsUniform(w, es, key);
  }

  lemma UpdateClean(w: World, s: Source, o: Oracle, key: string)
    requires Uniform(w, key) && Update(w, s, o).1 && (F.OURS !in s.finalizers ==> key == "")
    ensures Clean(Update(w, s, o).0, key)
  {
    hide Update;
    if w.store.cache.Some? && w.store.cache.value.finalizers != s.finalizers {
      var p1 := UpdateAccepted(w, s, o);
      hide Uniform, Updated;
      UpdatedClean(w, Update(w, s, o).0, p1, key);
    } else {
      UpdateSkips(w, s, o);
    }
  }

  lemma DriftedUpdate(w: World, s: Source, o: Oracle) returns (key: string)
    requires Drifted(w, KeyOf(s)) && Update(w, s, o).1 && F.OURS in s.finalizers
    ensures Clean(Update(w, s, o).0, key) && key in {KeyOf(s), ""}
  {
    hide Update, Clean, Uniform;
    if Uniform(w, KeyOf(s)) {
      key := KeyOf(s);
    } else {
      key := "";
      if n :| Turned(w, KeyOf(s), n) { TurnedRejects(w, s, o, KeyOf(s), n); }
    }
    UpdateClean(w, s, o, key);
  }

  /** While the informer is behind, our finalizer cannot be written. */
  lemma TurnedRejects(w: World, s: Source, o: Oracle, key: string, n: nat)
    requires Turned(w, key, n) && F.OURS in s.finalizers
    ensures !Update(w, s, o).1
  {
    hide Update;
    if Update(w, s, o).1 {
      if w.store.cache.Some? && w.store.cache.value.finalizers != s.finalizers {
        var p1 := UpdateAccepted(w, s, o);
      } else {
        UpdateSkips(w, s, o);
      }
    }
  }

  // ---------- Runs and histories ----------

  lemma BodyEndsClean(w: World, w1: World, original: Source, b: Step, o: Oracle) returns (key: string)
    requires Clean(w, KeyOf(original)) && w.store.cache == Some(original)
    requires Carried(w, b.world, KeyOf(original)) && CopyShape(original, b) && b.result.Success?
    requires Uniform(w1, KeyOf(b.source)) && (ServerHasOurs(b.world) ==> ServerHasOurs(w1))
    requires WriteFinalizers(w1, original, b.source, o).1
    ensures Clean(WriteFinalizers(w1, original, b.source, o).0, key) && key in {KeyOf(b.source), ""}
  {
    hide WriteFinalizers, Uniform;
    F.AddRemoveMembers(original.finalizers);
    CleanMeans(w, original);
    key := WriteFinalizersClean(w1, original, b.source, o);
  }

  lemma CleanMeans(w: World, original: Source)
    requires Clean(w, KeyOf(original)) && w.store.cache == Some(original)
    ensures KeyOf(original) != "" || F.OURS in original.finalizers ==> ServerHasOurs(w)
  {
  }

  /** A run that returns no error, whatever happens during it, leaves one ID everywhere, and our finalizer next to it. */
  lemma RunClean(w: World, o: Oracle, key: string) returns (key': string)
    requires Clean(w, key) && !RunOnce(w, o).1.Failure?
    ensures Clean(RunOnce(w, o).0, key')
  {
    hide Clean, Uniform, Body, WriteStatus, WriteFinalizers, CopyShape, Carried;
    key' := key;
    if !o.listerFails && w.store.cache.Some? {
      var original := w.store.cache.value;
      CacheKey(w, key);
      BodyClean(w, original, o, key);
      var b := Body(w, original, o);
      if b.result.Panicked? {
        key' := RestartClean(b.world, w, key);
      } else {
        CarriedIsClean(w, b.world, key);
        WriteStatusClean(b.world, original, b.source, o);
        key' := BodyEndsClean(w, WriteStatus(b.world, original, b.source, o).0, original, b, o);
      }
    }
  }

  lemma CacheKey(w: World, key: string)
    requires Clean(w, key) && w.store.cache.Some?
    ensures KeyOf(w.store.cache.value) == key
  {
  }

  lemma CarriedIsClean(w: World, w1: World, key: string)
    requires Carried(w, w1, key)
    ensures Clean(w1, key)
  {
  }

  lemma RestartClean(w1: World, w: World, key: string) returns (key': string)
    requires Carried(w, w1, key)
    ensures Clean(Restarted(w1), key')
  {
    key' := key;
    assert Server(w1.store) == w1.store.log[|w1.store.log| - 1];
  }

  lemma ActClean(w: World, a: Action, key: string) returns (key': string)
    requires Clean(w, key) && Act(w, a).ledger.errors == w.ledger.errors
    ensures Clean(Act(w, a), key')
  {
    hide RunOnce;
    key' := key;
    match a
    case Environment(e) => StepUniform(w, e, key); StepGrows(w, e);
    case Restart => key' := RestartClean(w, w, key);
    case Run(o) =>
      RunBooks(w, o);
      key' := RunClean(w, o, key);
  }

  lemma {:induction false} ExecClean(w: World, actions: seq<Action>, key: string) returns (key': string)
    requires Clean(w, key) && Exec(w, actions).ledger.errors == w.ledger.errors
    requires w.ledger.lostReplies <= w.ledger.errors && w.ledger.services <= w.ledger.receivers
    ensures Clean(Exec(w, actions), key')
    decreases |actions|
  {
    hide Clean, Act;
    key' := key;
    if actions != [] {
      ActBooks(w, actions[0]);
      HistoryBooks(Act(w, actions[0]), actions[1..]);
      var k := ActClean(w, actions[0], key);
      key' := ExecClean(Act(w, actions[0]), actions[1..], k);
    }
  }

  /**
   If every run so far returned nil, then, whatever else happened, the cache and every version still to be delivered carry the ID
   the server stores, a stored ID comes with our finalizer, whether its hook still exists or not, and
   nobody claims a finalizer that the server lacks.
   */
  lemma CleanIfErrorFree(w0: World, actions: seq<Action>)
    requires Initial(w0)
    ensures var w := Exec(w0, actions);
      w.ledger.errors == 0 ==>
        && (Server(w.store).Some? && KeyOf(Server(w.store).value) != "" ==> ServerHasOurs(w))
        && (Server(w.store).Some? && w.store.cache.Some? ==> KeyOf(w.store.cache.value) == KeyOf(Server(w.store).value))
        && (w.store.cache.Some? && F.OURS in w.store.cache.value.finalizers ==> ServerHasOurs(w))
  {
    var w := Exec(w0, actions);
    if w.ledger.errors == 0 {
      var key := ExecClean(w0, actions, "");
    }
  }
}
