/**
 Exactly which runs leak. A run that registers its hook and returns nil leaks it if and only if the source is
 lost between the two writes: made anew and delivered, or merely gone when the run has no finalizers to write. A
 run costs two hooks if and only if the reply of the registration is lost and the finalizer write fails.
 */
module ExactLeaks {
  import opened Outcomes
  import opened Numerals
  import opened Statuses
  import opened Settling
  import opened Sources
  import opened ProjectUrls
  import opened Hooks
  import opened Resources
  import opened Protocol
  import opened Invariants
  import opened Accounting
  import opened HookRuns
  import opened WriteBacks
  import opened Bookkeeping
  import opened HookTheorems
  import opened Convergence
  import opened LostWrites
  import F = Finalizers

  // ---------- The silent leak ----------

  /** While our finalizer is on the server the object does not go. */
  lemma {:induction false} HeldTogether(w: World, es: seq<Event>, url: string)
    requires Inv(w, url) && AllKeepUrl(es, url) && ServerHasOurs(w)
    ensures forall k :: |w.store.log| <= k < |EnvSteps(w, es).store.log| ==> EnvSteps(w, es).store.log[k].Some?
    decreases |es|
  {
    if es != [] {
      var w1 := EnvStep(w, es[0]);
      StoreEventShape(w, es[0], url);
      EnvStepInv(w, es[0], url);
      assert AllKeepUrl(es[1..], url);
      HeldTogether(w1, es[1..], url);
      EnvStepsInv(w1, es[1..], url);
      if w1.store.log != w.store.log {
        var entry :| NewVersion(w, entry, url) && w1.store == w.store.(log := w.store.log + [entry]);
        assert w1.store.log[|w.store.log|] == EnvSteps(w, es).store.log[|w.store.log|];
      }
    }
  }

  /** The new object is not the one whose ID was stored, and nobody can write it to the server as if it were. */
  lemma AnewIsBlank(w: World, w1: World, key: string, n: nat)
    requires Lineage(w1, key, n) && n == |w.store.log| && DeliveredAnew(w, w1) && StoreOK(w1.store)
    ensures !ServerHasOurs(w1) && (Server(w1.store).Some? ==> KeyOf(Server(w1.store).value) == "")
  {
    var log := w1.store.log;
    var k :| n <= k < w1.store.seen && k < |log| && log[k].None?;
    assert GoneBefore(log, n, |log| - 1);
    assert Server(w1.store) == log[|log| - 1];
  }

  /** Before the finalizers are written, a cached object that has them already tells the truth. */
  lemma ClaimHolds(w: World, original: Source, s: Source, url: string)
    requires InRun(w, original, KeyOf(s), KeyOf(s), url) && F.OURS in s.finalizers && original.finalizers != s.finalizers
    requires w.store.cache.Some? && w.store.cache.value.finalizers == s.finalizers
    ensures ServerHasOurs(w)
  {
  }

  /** What the accepted call of `update` finds on the server stays recorded there. */
  lemma CallKeepsKey(w: World, original: Source, s: Source, o: Oracle, url: string)
    requires InRun(w, original, KeyOf(s), KeyOf(s), url) && GapsKeepUrl(o.gaps, url) && F.OURS in s.finalizers
    requires w.store.cache.Some? && w.store.cache.value.finalizers != s.finalizers && Update(w, s, o).1
    ensures var w' := Update(w, s, o).0;
      && Server(w.store).Some? && w.store.seen == |w.store.log| - 1
      && Server(w'.store).Some? && KeyOf(Server(w'.store).value) == KeyOf(Server(w.store).value)
  {
    hide Inv, InRun, OwedBut, OurLive, Update, Agrees;
    UpdateCall(w, original, s, o, url);
  }

  /** The source is still the one whose ID was stored. */
  lemma KeptWrite(w: World, original: Source, s: Source, o: Oracle, url: string)
    requires InRun(w, original, KeyOf(s), KeyOf(s), url) && GapsKeepUrl(o.gaps, url) && Linked(w, KeyOf(s)) && F.OURS in s.finalizers
    requires original.finalizers != s.finalizers && Update(w, s, o).1
    ensures var w' := Update(w, s, o).0; Server(w'.store).Some? && KeyOf(Server(w'.store).value) == KeyOf(s)
  {
    hide InRun, Update;
    if w.store.cache.Some? && w.store.cache.value.finalizers != s.finalizers {
      CallKeepsKey(w, original, s, o, url);
    } else {
      UpdateSkips(w, s, o);
      ClaimHolds(w, original, s, url);
    }
  }

  /** The cache holds a new source: the write goes there. */
  lemma AnewWrite(w: World, original: Source, s: Source, o: Oracle, url: string)
    requires InRun(w, original, KeyOf(s), KeyOf(s), url) && GapsKeepUrl(o.gaps, url) && F.OURS in s.finalizers
    requires original.finalizers != s.finalizers && Update(w, s, o).1 && KeyOf(s) != ""
    requires !ServerHasOurs(w) && (Server(w.store).Some? ==> KeyOf(Server(w.store).value) == "")
    ensures var w' := Update(w, s, o).0; Server(w'.store).Some? && KeyOf(Server(w'.store).value) != KeyOf(s)
  {
    hide InRun, Update, ServerHasOurs;
    if w.store.cache.Some? && w.store.cache.value.finalizers != s.finalizers {
      CallKeepsKey(w, original, s, o, url);
    } else {
      UpdateSkips(w, s, o);
      ClaimHolds(w, original, s, url);
    }
  }

  /**
   On the way from `w` to `w1` the object that the ID was stored in is lost to the run. If the run has no
   finalizers to write, that is when the object goes; if it has, it notices, unless a new object was delivered.
   */
  ghost predicate LostBetween(original: Source, w: World, w1: World) {
    if F.Add(original.finalizers) == original.finalizers
    then GoneBefore(w1.store.log, |w.store.log|, |w1.store.log|)
    else DeliveredAnew(w, w1)
  }

  /** A run that has no finalizers to write. */
  lemma LineageEnds(w: World, key: string, n: nat)
    requires Lineage(w, key, n) && key != ""
    ensures (Server(w.store).Some? && KeyOf(Server(w.store).value) == key) <==> !GoneBefore(w.store.log, n, |w.store.log|)
  {
    var log := w.store.log;
    assert Server(w.store) == log[|log| - 1];
    if GoneBefore(log, n, |log|) && Server(w.store).Some? {
      var k :| n <= k < |log| && log[k].None?;
      assert GoneBefore(log, n, |log| - 1);
    }
    if GoneBefore(log, n, |log| - 1) {
      var k :| n <= k < |log| - 1 && log[k].None?;
      assert GoneBefore(log, n, |log|);
    }
    if Server(w.store).None? { assert GoneBefore(log, n, |log|); }
  }

  /** A run that is about to write its finalizers, its hook recorded. */
  lemma SecondWrite(w0: World, w: World, original: Source, s: Source, pending: set<int>, o: Oracle, url: string)
    requires Recorded(w0, w, original, s, pending, url) && GapsKeepUrl(o.gaps, url)
    requires WriteFinalizers(w, original, s, o).1
    ensures var w' := WriteFinalizers(w, original, s, o).0;
      (Server(w'.store).Some? && KeyOf(Server(w'.store).value) == KeyOf(s)) <==> !LostBetween(original, w, EnvSteps(w, o.gaps.update))
  {
    hide Inv, InRun, OwedBut, OurLive, Update, Holding, Linked, Lineage, OneKey, DeliveredAnew, GoneBefore, ServerHasOurs, MaskedBy, Moves;
    F.AddRemoveMembers(original.finalizers);
    var w1 := EnvSteps(w, o.gaps.update);
    RecordedInv(w, original, KeyOf(s), KeyOf(s), url);
    EnvInRun(w, o.gaps.update, original, KeyOf(s), KeyOf(s), {}, url);
    MovesFacts(w, w1);
    KeyIsHeld(w0, w, original, s, pending);
    if original.finalizers == s.finalizers {
      LineageStarts(w, KeyOf(s));
      LineageSteps(w, o.gaps.update, KeyOf(s), |w.store.log|, url);
      LineageEnds(w1, KeyOf(s), |w.store.log|);
    } else if DeliveredAnew(w, w1) {
      AnewAfter(w, s, o, url);
      AnewWrite(w1, original, s, o, url);
    } else {
      RecordedEnv(w0, w, original, s, pending, o.gaps.update, url);
      HeldLinks(w0, w1, original, s, pending, url);
      KeptWrite(w1, original, s, o, url);
    }
  }

  lemma HeldLinks(w0: World, w: World, original: Source, s: Source, pending: set<int>, url: string)
    requires Held(w0, w, original, s, pending, url)
    ensures Linked(w, KeyOf(s))
  {
  }

  lemma KeyIsHeld(w0: World, w: World, original: Source, s: Source, pending: set<int>)
    requires Holding(w0, w, original, s, pending)
    ensures KeyOf(s) != "" && s.finalizers == F.Add(original.finalizers)
  {
  }

  lemma AnewAfter(w: World, s: Source, o: Oracle, url: string)
    requires Inv(w, url) && AllKeepUrl(o.gaps.update, url) && OneKey(w, KeyOf(s)) && Server(w.store).Some?
    requires DeliveredAnew(w, EnvSteps(w, o.gaps.update))
    ensures var w1 := EnvSteps(w, o.gaps.update);
      !ServerHasOurs(w) && !ServerHasOurs(w1) && (Server(w1.store).Some? ==> KeyOf(Server(w1.store).value) == "")
  {
    hide KeysOK, FinalizersOK, HooksOK, Lineage, ServerHasOurs, OneKey;
    var w1 := EnvSteps(w, o.gaps.update);
    LineageStarts(w, KeyOf(s));
    LineageSteps(w, o.gaps.update, KeyOf(s), |w.store.log|, url);
    EnvStepsInv(w, o.gaps.update, url);
    AnewIsBlank(w, w1, KeyOf(s), |w.store.log|);
    if ServerHasOurs(w) { HeldTogether(w, o.gaps.update, url); }
  }

  /** The run has registered a hook and was told its ID. */
  ghost predicate Registers(w: World, o: Oracle) {
    var w' := RunOnce(w, o).0;
    w'.ledger.created != w.ledger.created && w'.ledger.lostReplies == w.ledger.lostReplies
  }

  /** Where a registering run that ends without error gets to before its writes. */
  lemma RegisteringBody(w: World, original: Source, o: Oracle, url: string) returns (pending: set<int>)
    requires Inv(w, url) && GapsKeepUrl(o.gaps, url) && !o.listerFails && w.store.cache == Some(original)
    requires Registers(w, o) && RunOnce(w, o).1.Success?
    ensures var b := Body(w, original, o);
      && !b.result.Panicked? && BodyPost(w, original, b, pending, url) && pending != {}
      && KeyOf(b.source) == Itoa(o.hookId)
      && RunOnce(w, o) == WriteBack(b.world, original, b.source, b.result, o)
  {
    hide Inv, Body, BodyPost, WriteBack, Restarted;
    var b := Body(w, original, o);
    pending := BodyFacts(w, original, o, url);
    BodyBooks(w, original, o);
    WriteBackKeeps(b.world, original, b.source, b.result, o);
    NotFresh(w, original, b, pending, o, url);
  }

  /** Without a pending hook the working copy still has the ID it was read with. */
  lemma NotFresh(w: World, original: Source, b: Step, pending: set<int>, o: Oracle, url: string)
    requires BodyPost(w, original, b, pending, url) && !original.deleting && KeyOf(original) == ""
    ensures KeyOf(b.source) == Itoa(o.hookId) ==> pending != {}
  {
    ItoaNotEmpty(o.hookId);
    hide InRun, HookPending, OwedBut, MaskedBy;
  }

  lemma ItoaNotEmpty(n: int)
    ensures Itoa(n) != ""
  {
  }

  lemma RecordedIff(w: World, id: int, url: string)
    requires Inv(w, url) && id in w.ledger.created
    ensures RecordedId(w) == {id} <==> Server(w.store).Some? && KeyOf(Server(w.store).value) == Itoa(id)
    ensures id in Unrecorded(w) <==> id in Live(w) && RecordedId(w) != {id}
  {
    AtoiItoa(id);
    if Server(w.store).Some? {
      assert Server(w.store) == w.store.log[|w.store.log| - 1];
      var key := KeyOf(Server(w.store).value);
      assert ValidKey(w, key);
      if key != "" {
        var i :| i in w.ledger.created && key == Itoa(i);
        AtoiItoa(i);
      }
    }
  }

  /** The second half of `RunOnce`, for a registering run. */
  lemma RegisteringWrites(w: World, original: Source, b: Step, pending: set<int>, o: Oracle, url: string)
    requires w.store.cache == Some(original) && BodyPost(w, original, b, pending, url) && pending != {} && GapsKeepUrl(o.gaps, url)
    requires WriteBack(b.world, original, b.source, b.result, o).1.Success?
    ensures var a := WriteStatus(b.world, original, b.source, o);
      var w' := WriteBack(b.world, original, b.source, b.result, o).0;
      && a.1
      && ((Server(w'.store).Some? && KeyOf(Server(w'.store).value) == KeyOf(b.source))
          <==> !LostBetween(original, a.0, EnvSteps(a.0, o.gaps.update)))
  {
    hide Inv, BodyPost, Recorded, WithinDebt, WriteStatus, WriteFinalizers, MaskedBy, LostBetween, Masked;
    PendingBody(w, original, b, pending, o, url);
    var a := WriteStatus(b.world, original, b.source, o);
    SecondWrite(w, a.0, original, b.source, pending, o, url);
  }

  /** Without a false claim in the cached object, only a new source can lose the hook. */
  lemma UnmaskedWrites(w: World, original: Source, b: Step, pending: set<int>, o: Oracle, url: string)
    requires w.store.cache == Some(original) && BodyPost(w, original, b, pending, url) && pending != {} && GapsKeepUrl(o.gaps, url)
    requires !Masked(w) && WriteStatus(b.world, original, b.source, o).1
    ensures var a := WriteStatus(b.world, original, b.source, o).0; var w1 := EnvSteps(a, o.gaps.update);
      LostBetween(original, a, w1) <==> DeliveredAnew(a, w1)
  {
    hide Inv, BodyPost, WithinDebt, WriteStatus, WriteFinalizers, MaskedBy, Masked, InRun, OneKey, Holding, ServerHasOurs, F.Add;
    PendingBody(w, original, b, pending, o, url);
    F.AddRemoveMembers(original.finalizers);
    var a := WriteStatus(b.world, original, b.source, o).0;
    if F.Add(original.finalizers) == original.finalizers {
      RecordedInv(a, original, KeyOf(b.source), KeyOf(b.source), url);
      Unmasked(a, original);
      HeldTogether(a, o.gaps.update, url);
    }
  }

  lemma Unmasked(w: World, original: Source)
    requires !original.deleting && KeyOf(original) == "" && !MaskedBy(w, original)
    ensures F.OURS in original.finalizers ==> ServerHasOurs(w)
  {
  }

  lemma HookIsBooked(w: World, o: Oracle)
    requires Registers(w, o)
    ensures o.hookId in RunOnce(w, o).0.ledger.created
  {
    hide RunOnce;
    RunBooks(w, o);
  }

  /** The source is lost between the two writes of a run. */
  ghost predicate Strays(w: World, o: Oracle)
    requires w.store.cache.Some?
  {
    var original := w.store.cache.value;
    var b := Body(w, original, o);
    var a := WriteStatus(b.world, original, b.source, o).0;
    LostBetween(original, a, EnvSteps(a, o.gaps.update))
  }

  /**
   The silent leak, exactly, from every state: a run that registers its hook and returns nil leaves the hook
   live and unrecorded if and only if the source is lost between the two writes. A run that finds its finalizer
   already claimed loses it to any deletion there. A run that has to write it loses it only to a new source that
   was delivered: if it was not, the second write conflicts, and the run returns an error. From a state without
   a false claim the first kind does not occur.
   */
  lemma SilentLeakIff(w: World, o: Oracle, url: string)
    requires Inv(w, url) && GapsKeepUrl(o.gaps, url)
    requires Registers(w, o) && RunOnce(w, o).1.Success?
    ensures w.store.cache.Some?
    ensures var w' := RunOnce(w, o).0;
      o.hookId in Unrecorded(w') <==> o.hookId in Live(w') && Strays(w, o)
    ensures !Masked(w) ==> (Strays(w, o) <==> Replaced(w, o))
  {
    hide Inv, RunOnce, Body, BodyPost, WriteStatus, WriteBack, LostBetween, DeliveredAnew, Masked, Unrecorded, RecordedId, Live, Registers;
    var w' := RunOnce(w, o).0;
    Began(w, o);
    var original := w.store.cache.value;
    var b := Body(w, original, o);
    var pending := RegisteringBody(w, original, o, url);
    RegisteringWrites(w, original, b, pending, o, url);
    if !Masked(w) { UnmaskedWrites(w, original, b, pending, o, url); }
    RunDebt(w, o, url);
    HookIsBooked(w, o);
    RecordedIff(w', o.hookId, url);
  }

  lemma Began(w: World, o: Oracle)
    requires Registers(w, o)
    ensures !o.listerFails && w.store.cache.Some?
  {
  }

  // ---------- The run that costs two hooks ----------

  /** When the cached object has no ID, every live hook is owed, and nothing else is. */
  lemma AllOwed(w: World, url: string)
    requires Inv(w, url) && w.store.cache.Some? && KeyOf(w.store.cache.value) == ""
    ensures Unrecorded(w) == OurLive(w) && Owed(w) == |OurLive(w)|
  {
    assert EntryAgrees(w, w.store.cache, w.store.seen);
    AgreementRecords(w, "", url);
    assert Unrecorded(w) - {} == Unrecorded(w);
  }

  /** An undisturbed body that loses a reply adds one live hook of this controller, and does nothing else. */
  ghost predicate LosesOne(w: World, w': World, url: string) {
    w' == w.(gitlab := w'.gitlab, ledger := w'.ledger) && exists h :: Joins(w, w', h, url)
  }

  lemma LostCreate(w: World, s: Source, domain: string, o: Oracle, url: string)
    requires Inv(w, url) && s.spec.projectURL == url
    ensures var w' := CreateWebhook(w, s, domain, o).world; LostSince(w, w') ==> LosesOne(w, w', url)
  {
    hide Inv, Joins, CreateWebhook, HookConfigOf, AddressOf;
    CreateTouches(w, s, domain, o);
    CreateShape(w, s, domain, o, url);
  }

  lemma LostRegister(w: World, s: Source, o: Oracle, url: string)
    requires Inv(w, url) && s.spec.projectURL == url && Undisturbed(o)
    ensures var w' := RegisterHook(w, s, o).world; LostSince(w, w') ==> LosesOne(w, w', url)
  {
    hide Inv, LosesOne, CreateWebhook, ChooseService, F.Add;
    Resting(w);
    var s1 := s.(finalizers := F.Add(s.finalizers));
    var svc := ChooseService(w.kube.services, s1);
    if svc.Some? && svc.value.ingress != [] && svc.value.nodePorts != [] {
      LostCreate(w, s1, svc.value.ingress[0] + ":" + Itoa(svc.value.nodePorts[0]), o, url);
    }
  }

  lemma LostBody(w: World, original: Source, o: Oracle, url: string)
    requires Inv(w, url) && w.store.cache == Some(original) && Undisturbed(o)
    ensures var w' := Body(w, original, o).world; LostSince(w, w') ==> LosesOne(w, w', url)
  {
    hide KeysOK, FinalizersOK, LosesOne, SettleStatus, MakeChildren, RegisterHook, Finalize, HasReceiver;
    Resting(w);
    if original.deleting {
      FinalizeBooks(w, original, o);
    } else {
      var s1 := original.(status := SettleStatus(original.spec, original.status, o).status);
      NoHookFromChildren(w, s1, o);
      LostRegister(w, s1, o, url);
    }
  }

  lemma NoHookFromChildren(w: World, s: Source, o: Oracle)
    requires Undisturbed(o)
    ensures MakeChildren(w, s, o).world.ledger.lostReplies == w.ledger.lostReplies
  {
    Resting(w);
    Resting(AddReceiver(w, s, o));
  }

  lemma LostRun(w: World, o: Oracle, url: string)
    requires Inv(w, url) && Undisturbed(o) && LostSince(w, RunOnce(w, o).0)
    ensures w.store.cache.Some? && KeyOf(w.store.cache.value) == ""
    ensures |OurLive(RunOnce(w, o).0)| == |OurLive(w)| + 1
  {
    hide Inv, Body, WriteStatus, WriteFinalizers, Joins, Restarted, OurLive;
    RunBooks(w, o);
    var original := w.store.cache.value;
    var b := Body(w, original, o);
    LostBody(w, original, o, url);
    BodyBooks(w, original, o);
    StatusRewrites(b.world, original, b.source, o);
    FinalizersRewrite(WriteStatus(b.world, original, b.source, o).0, original, b.source, o);
    RestartTouchesStore(b.world);
    var h :| Joins(w, b.world, h, url);
    OneMore(w, b.world, RunOnce(w, o).0, h, url);
  }

  lemma RestartTouchesStore(w: World)
    ensures Restarted(w) == w.(store := Restarted(w).store)
  {
  }

  lemma OneMore(w: World, w1: World, w': World, h: Hook, url: string)
    requires Inv(w, url) && Joins(w, w1, h, url) && w'.gitlab == w1.gitlab && w'.ledger == w1.ledger
    ensures |OurLive(w')| == |OurLive(w)| + 1 && w1.ledger.created != w.ledger.created
  {
    assert h.id !in w.ledger.created;
    assert OurLive(w') == OurLive(w) + {h.id};
  }

  // ---------- The same, read off the state and the outcomes of the calls ----------

  /** The run gets as far as registering a hook; GitLab adds it, and the reply is lost. */
  ghost predicate LosesReply(w: World, s: Source, o: Oracle) {
    && !o.listerFails && !s.deleting && KeyOf(s) == "" && Available(s.spec, o)
    && !o.listDeploymentsFails && HasReceiver(w.kube.deployments, s) && !o.listServicesFails
    && Served(w, s) && AddressOf(s.spec.projectURL).Ok?
    && o.addHook.Lost? && IsInt64(o.hookId) && o.hookId !in w.gitlab.issued
  }

  /** The object is based on the current version. */
  ghost predicate Current(w: World, s: Source) { Server(w.store).Some? && s.rv == Server(w.store).value.rv }

  /**
   Nobody has our finalizer yet; the status write is not needed or succeeds; and the finalizer write fails,
   because it is refused, or conflicts with an earlier write or with the status write of the same run, or comes
   to an object being deleted.
   */
  ghost predicate FinalizerFails(w: World, s: Source, o: Oracle) {
    var st := SettleStatus(s.spec, s.status, o).status;
    && F.OURS !in s.finalizers && !ServerHasOurs(w)
    && (st == s.status || (Current(w, s) && o.updateStatus.Done?))
    && (o.update.Refused? || !Current(w, s) || Server(w.store).value.deleting
        || (st != s.status && st != Server(w.store).value.status))
  }

  lemma SettlesIff(spec: Spec, st: Status, o: Oracle)
    ensures SettleStatus(spec, st, o).result.Success? <==> Available(spec, o)
  {
    hide Apply;
  }

  /** The working copy after the body of a run that gets to the hook. */
  function Reached(s: Source, o: Oracle): Source {
    s.(status := SettleStatus(s.spec, s.status, o).status, finalizers := F.Add(s.finalizers))
  }

  lemma CreateLoses(w: World, s: Source, domain: string, o: Oracle)
    ensures var b := CreateWebhook(w, s, domain, o);
      (LostSince(w, b.world) <==> AddressOf(s.spec.projectURL).Ok? && o.addHook.Lost? && IsInt64(o.hookId) && o.hookId !in w.gitlab.issued)
      && (LostSince(w, b.world) ==> b.result.Failure? && b.source == s && b.world == w.(gitlab := b.world.gitlab, ledger := b.world.ledger))
  {
    hide AddressOf, HookConfigOf;
    if AddressOf(s.spec.projectURL).Ok? && !o.addHook.Refused? && IsInt64(o.hookId) && o.hookId !in w.gitlab.issued {
      var a := AddressOf(s.spec.projectURL).value;
      var g := AddProjectHook(w.gitlab, a, o.hookId, HookConfigOf(s, domain, o), o.addHook).0;
      assert o.hookId in g.issued;
    }
  }

  lemma RegisterLoses(w: World, s: Source, o: Oracle)
    requires Undisturbed(o)
    ensures var b := RegisterHook(w, s, o);
      && (LostSince(w, b.world) <==>
            && KeyOf(s) == "" && !o.listServicesFails && Served(w, s) && AddressOf(s.spec.projectURL).Ok?
            && o.addHook.Lost? && IsInt64(o.hookId) && o.hookId !in w.gitlab.issued)
      && (LostSince(w, b.world) ==> b.result.Failure? && b.source == s.(finalizers := F.Add(s.finalizers))
                                    && b.world == w.(gitlab := b.world.gitlab, ledger := b.world.ledger))
  {
    hide CreateWebhook, ChooseService, F.Add, AddressOf;
    Resting(w);
    var s1 := s.(finalizers := F.Add(s.finalizers));
    SameChoice(w.kube.services, s, s1);
    var svc := ChooseService(w.kube.services, s1);
    if svc.Some? && svc.value.ingress != [] && svc.value.nodePorts != [] {
      CreateLoses(w, s1, svc.value.ingress[0] + ":" + Itoa(svc.value.nodePorts[0]), o);
    }
  }

  lemma BodyLoses(w: World, s: Source, o: Oracle)
    requires Undisturbed(o) && !o.listerFails
    ensures var b := Body(w, s, o);
      && (LostSince(w, b.world) <==> LosesReply(w, s, o))
      && (LostSince(w, b.world) ==> b.result.Failure? && b.source == Reached(s, o)
                                    && b.world == w.(gitlab := b.world.gitlab, ledger := b.world.ledger))
  {
    hide SettleStatus, MakeChildren, RegisterHook, Finalize, HasReceiver, Available, Served, AddressOf, F.Add;
    Resting(w);
    if s.deleting {
      FinalizeBooks(w, s, o);
    } else {
      SettlesIff(s.spec, s.status, o);
      SettleKeepsKey(s.spec, s.status, o);
      var s1 := s.(status := SettleStatus(s.spec, s.status, o).status);
      SameIdentity(w.kube.deployments, w.kube.services, s, s1);
      ServedSame(w, s, s1);
      NoHookFromChildren(w, s1, o);
      RegisterLoses(w, s1, o);
    }
  }

  /** What the status write of the run leaves for the finalizer write. */
  lemma StatusBefore(w: World, s: Source, src: Source, o: Oracle)
    requires StoreOK(w.store) && w.store.cache == Some(s) && Undisturbed(o)
    ensures var r := WriteStatus(w, s, src, o);
      && r.0.store.cache == Some(s.(status := src.status)) && (ServerHasOurs(r.0) <==> ServerHasOurs(w))
      && (r.1 <==> src.status == s.status || (Current(w, s) && o.updateStatus.Done?))
      && (Server(r.0.store).Some? <==> Server(w.store).Some?)
      && (Server(w.store).Some? ==> Server(r.0.store).value.deleting == Server(w.store).value.deleting)
      && (r.1 ==> (Current(r.0, s) <==> Current(w, s) && !(src.status != s.status && src.status != Server(w.store).value.status)))
  {
    Resting(w);
    Resting(w.(store := w.store.(cache := Some(s.(status := src.status)))));
    assert Server(w.store) == w.store.log[|w.store.log| - 1];
  }

  /** The finalizer write of the run; our finalizer is new to the cached object. */
  lemma ClaimAfter(w: World, s: Source, src: Source, o: Oracle)
    requires w.store.cache.Some? && Undisturbed(o) && F.OURS in src.finalizers && F.OURS !in s.finalizers
    requires w.store.cache.value.finalizers == s.finalizers && w.store.cache.value.rv == s.rv
    requires !w.store.cache.value.deleting && KeyOf(w.store.cache.value) == ""
    ensures Masked(WriteFinalizers(w, s, src, o).0) <==>
      !ServerHasOurs(w) && (o.update.Refused? || !Current(w, s) || Server(w.store).value.deleting)
  {
    Resting(w);
    Resting(w.(store := w.store.(cache := Some(w.store.cache.value.(finalizers := src.finalizers)))));
    if !ServerHasOurs(w) && Server(w.store).Some? {
      assert F.OURS in src.finalizers && F.OURS !in Server(w.store).value.finalizers;
    }
  }

  /** A claim that was there before is as good as it was. */
  lemma ClaimBefore(w: World, s: Source, src: Source, o: Oracle)
    requires w.store.cache.Some? && Undisturbed(o) && F.OURS in src.finalizers && ServerHasOurs(w)
    ensures !Masked(WriteFinalizers(w, s, src, o).0)
  {
    Resting(w);
    Resting(w.(store := w.store.(cache := Some(w.store.cache.value.(finalizers := src.finalizers)))));
  }

  /** Whether the two writes of a run that lost the reply leave a false claim behind. */
  lemma WritesMask(w: World, s: Source, o: Oracle)
    requires StoreOK(w.store) && w.store.cache == Some(s) && Undisturbed(o) && !s.deleting && KeyOf(s) == "" && !Masked(w)
    ensures Masked(WriteBack(w, s, Reached(s, o), Failure, o).0) <==> FinalizerFails(w, s, o)
  {
    hide SettleStatus, WriteStatus, WriteFinalizers, F.Add, ServerHasOurs, StoreOK, Current;
    var src := Reached(s, o);
    SettleKeepsKey(s.spec, s.status, o);
    F.AddRemoveMembers(s.finalizers);
    StatusBefore(w, s, src, o);
    var a := WriteStatus(w, s, src, o);
    if a.1 {
      if F.OURS in s.finalizers {
        ClaimBefore(a.0, s, src, o);
      } else {
        ClaimAfter(a.0, s, src, o);
      }
    }
  }

  /** A double fault is what it takes to be one. */
  lemma DoubleFaultIff(w: World, o: Oracle, url: string)
    requires Inv(w, url) && Undisturbed(o) && w.store.cache.Some? && !Masked(w)
    ensures var s := w.store.cache.value;
      DoubleFault(w, RunOnce(w, o).0) <==> LosesReply(w, s, o) && FinalizerFails(w, s, o)
  {
    hide Inv, Body, WriteBack, Restarted, Masked, LosesReply, FinalizerFails;
    var s := w.store.cache.value;
    if o.listerFails {
      NoRun(w, s, o);
    } else {
      BodyLoses(w, s, o);
      var b := Body(w, s, o);
      WriteBackKeeps(b.world, s, b.source, b.result, o);
      RestartTouchesStore(b.world);
      if LosesReply(w, s, o) {
        SameMasks(w, b.world, s, o, url);
        WritesMask(b.world, s, o);
      }
    }
  }

  lemma NoRun(w: World, s: Source, o: Oracle)
    requires o.listerFails
    ensures !LosesReply(w, s, o)
  {
  }

  lemma SameMasks(w: World, w1: World, s: Source, o: Oracle, url: string)
    requires Inv(w, url) && w1.store == w.store && LosesReply(w, s, o)
    ensures StoreOK(w1.store) && (Masked(w1) <==> Masked(w)) && (FinalizerFails(w1, s, o) <==> FinalizerFails(w, s, o))
    ensures !s.deleting && KeyOf(s) == ""
  {
  }

  /**
   The price of a run, exactly: while nobody else acts, a run raises the debt by two if and only if the reply
   of the registration is lost and the finalizer write fails. Otherwise it raises it by one at most. The two
   units are a hook that nobody knows of, and a cached object whose next hook will be registered without the
   finalizer.
   */
  lemma TwoHooksIff(w: World, o: Oracle, url: string)
    requires Inv(w, url) && Undisturbed(o)
    ensures var w' := RunOnce(w, o).0;
      && Debt(w') <= Debt(w) + 2
      && (Debt(w') == Debt(w) + 2 <==>
            w.store.cache.Some? && LosesReply(w, w.store.cache.value, o) && FinalizerFails(w, w.store.cache.value, o))
      && (Debt(w') == Debt(w) + 2 ==> |Unrecorded(w')| == |Unrecorded(w)| + 1 && Masked(w'))
  {
    hide Inv, OwedBut, RunOnce, Replaced, OurLive, LosesReply, FinalizerFails, Unrecorded;
    var w' := RunOnce(w, o).0;
    RestingUrl(w, o, url);
    RunDebt(w, o, url);
    if DoubleFault(w, w') {
      LostRun(w, o, url);
      AllOwed(w, url);
      AllOwed(w', url);
    }
    if w.store.cache.None? {
      NoFault(w, o);
    } else if !Masked(w) {
      DoubleFaultIff(w, o, url);
    } else {
      FirstClaim(w, o);
    }
  }

  lemma FirstClaim(w: World, o: Oracle)
    requires Masked(w)
    ensures !FinalizerFails(w, w.store.cache.value, o)
  {
  }

  lemma NoFault(w: World, o: Oracle)
    requires w.store.cache.None?
    ensures !DoubleFault(w, RunOnce(w, o).0)
  {
  }

  lemma RestingUrl(w: World, o: Oracle, url: string)
    requires Undisturbed(o)
    ensures GapsKeepUrl(o.gaps, url) && !Replaced(w, o)
  {
    hide Body, WriteStatus;
    if w.store.cache.Some? {
      Resting(WriteStatus(Body(w, w.store.cache.value, o).world, w.store.cache.value, Body(w, w.store.cache.value, o).source, o).0);
    }
  }
}
