/**
 What is not retried. A refused finalizer write hides itself, because the cached object was already
 overwritten; a Service that could not be created is never created again; and a finalizer write
 replaces the whole list, so it drops finalizers that others added during the run.
 */
module LostWrites {
  import opened Outcomes
  import opened Numerals
  import opened Statuses
  import opened Sources
  import opened Resources
  import opened Protocol
  import opened Invariants
  import opened Bookkeeping
  import opened CleanHistories
  import opened Convergence
  import Settling
  import F = Finalizers

  /** The environment rests during the run. */
  predicate Undisturbed(o: Oracle) {
    && o.gaps.list == [] && o.gaps.deployment == [] && o.gaps.service == [] && o.gaps.services == [] && o.gaps.hook == []
    && o.gaps.status == [] && o.gaps.statusCall == [] && o.gaps.update == [] && o.gaps.updateCall == []
  }

  // ---------- Finalizers ----------

  /** The cached object already looks as every run would leave it, while the server has the finalizers `fs`. */
  ghost predicate Hidden(w: World, fs: seq<string>) {
    && w.store.cache.Some? && Server(w.store).Some? && Server(w.store).value.finalizers == fs
    && var c := w.store.cache.value;
       if c.deleting then F.Remove(c.finalizers) == c.finalizers else F.Add(c.finalizers) == c.finalizers
  }

  /** No body of a run touches the store, and none leaves other finalizers in the copy. */
  lemma BodyHides(w: World, original: Source, o: Oracle)
    requires Undisturbed(o)
    requires if original.deleting then F.Remove(original.finalizers) == original.finalizers else F.Add(original.finalizers) == original.finalizers
    ensures var b := Body(w, original, o); b.world.store == w.store && b.source.finalizers == original.finalizers
  {
    hide SettleStatus, HasReceiver, CreateWebhook, DeleteWebhook, ChooseService, F.Add, F.Remove;
    Resting(w);
    if original.deleting {
      DeleteTouches(w, original, o);
    } else {
      var s1 := original.(status := SettleStatus(original.spec, original.status, o).status);
      ChildrenKeepStore(w, s1, o);
      RegisterKeepsStore(w, s1, o);
    }
  }

  lemma ChildrenKeepStore(w: World, s: Source, o: Oracle)
    requires Undisturbed(o)
    ensures var b := MakeChildren(w, s, o); b.world.store == w.store && b.source == s
  {
    Resting(w);
    Resting(AddReceiver(w, s, o));
  }

  lemma RegisterKeepsStore(w: World, s: Source, o: Oracle)
    requires Undisturbed(o)
    ensures var b := RegisterHook(w, s, o);
      b.world == w.(gitlab := b.world.gitlab, ledger := b.world.ledger) && b.source.finalizers == F.Add(s.finalizers)
  {
    hide CreateWebhook, F.Add, ChooseService;
    Resting(w);
    var s1 := s.(finalizers := F.Add(s.finalizers));
    var svc := ChooseService(w.kube.services, s1);
    if svc.Some? && svc.value.ingress != [] && svc.value.nodePorts != [] {
      CreateTouches(w, s1, svc.value.ingress[0] + ":" + Itoa(svc.value.nodePorts[0]), o);
    }
  }

  lemma StatusHides(w: World, original: Source, s: Source, o: Oracle, fs: seq<string>)
    requires Undisturbed(o) && Hidden(w, fs) && w.store.cache == Some(original)
    ensures Hidden(WriteStatus(w, original, s, o).0, fs)
  {
    Resting(w);
    Resting(w.(store := w.store.(cache := Some(original.(status := s.status)))));
    hide F.Add, F.Remove;
  }

  lemma HiddenRun(w: World, o: Oracle, fs: seq<string>)
    requires Undisturbed(o) && Hidden(w, fs) && !RunOnce(w, o).1.Panicked?
    ensures Hidden(RunOnce(w, o).0, fs)
  {
    hide Body, WriteStatus, F.Add, F.Remove;
    if !o.listerFails {
      var original := w.store.cache.value;
      var b := Body(w, original, o);
      BodyHides(w, original, o);
      StatusHides(b.world, original, b.source, o, fs);
      Resting(WriteStatus(b.world, original, b.source, o).0);
    }
  }

  /** Runs, one after the other, with nothing between them. */
  function Runs(w: World, os: seq<Oracle>): World
    decreases |os|
  {
    if os == [] then w else Runs(Reconcile(w, os[0]).0, os[1..])
  }

  /** No run of the sequence panics; a panic would restart the controller and refresh the cache. */
  predicate NonePanics(w: World, os: seq<Oracle>)
    decreases |os|
  {
    os == [] || (!RunOnce(w, os[0]).1.Panicked? && NonePanics(Reconcile(w, os[0]).0, os[1..]))
  }

  lemma {:induction false} HiddenRuns(w: World, os: seq<Oracle>, fs: seq<string>)
    requires (forall o :: o in os ==> Undisturbed(o)) && Hidden(w, fs) && NonePanics(w, os)
    ensures Hidden(Runs(w, os), fs)
    decreases |os|
  {
    hide RunOnce, Undisturbed;
    if os != [] {
      HiddenRun(w, os[0], fs);
      var w1 := Reconcile(w, os[0]).0;
      assert Hidden(w1, fs);
      HiddenRuns(w1, os[1..], fs);
    }
  }

  /** A refused finalizer write leaves its list in the cached object and the old one on the server. */
  lemma RefusalHides(w: World, s: Source, original: Source, o: Oracle)
    requires Undisturbed(o) && o.update.Refused? && Server(w.store).Some? && w.store.cache == Some(original)
    requires s.finalizers != original.finalizers
    requires s.finalizers == if original.deleting then F.Remove(original.finalizers) else F.Add(original.finalizers)
    ensures var r := Update(w, s, o); !r.1 && Hidden(r.0, Server(w.store).value.finalizers)
  {
    hide F.Add, F.Remove;
    F.AddRemoveAlgebra(original.finalizers);
    Resting(w.(store := w.store.(cache := Some(original.(finalizers := s.finalizers)))));
  }

  /**
   A refused finalizer write is never retried: as long as no new version is delivered and the process
   lives, no number of runs, whatever their calls return, changes the finalizers on the server. A
   deleted source stays blocked; a live one stays without the finalizer.
   */
  lemma RefusedWriteIsNotRetried(w: World, s: Source, original: Source, o: Oracle, os: seq<Oracle>)
    requires Undisturbed(o) && o.update.Refused? && Server(w.store).Some? && w.store.cache == Some(original)
    requires s.finalizers != original.finalizers
    requires s.finalizers == if original.deleting then F.Remove(original.finalizers) else F.Add(original.finalizers)
    requires (forall o' :: o' in os ==> Undisturbed(o')) && NonePanics(Update(w, s, o).0, os)
    ensures var w' := Runs(Update(w, s, o).0, os);
      Server(w'.store).Some? && Server(w'.store).value.finalizers == Server(w.store).value.finalizers
  {
    hide Update;
    RefusalHides(w, s, original, o);
    HiddenRuns(Update(w, s, o).0, os, Server(w.store).value.finalizers);
  }

  // ---------- The status ----------

  /** The chosen Service has an address. */
  ghost predicate Served(w: World, s: Source) {
    var svc := ChooseService(w.kube.services, s); svc.Some? && svc.value.ingress != [] && svc.value.nodePorts != []
  }

  lemma ServedSame(w: World, s: Source, s1: Source)
    requires s1.name == s.name && s1.namespace == s.namespace
    ensures Served(w, s1) <==> Served(w, s)
  {
    SameChoice(w.kube.services, s, s1);
  }

  /**
   The cached object has a settled status with a hook ID, while the server still has the status `st`. `spec` is what the
   source asks for, and `uri` where its sink resolves to.
   */
  ghost predicate StatusHidden(w: World, spec: Spec, kept: Status, st: Status, uri: Option<string>) {
    && w.store.cache.Some? && !w.store.cache.value.deleting
    && w.store.cache.value.spec == spec && w.store.cache.value.status == kept
    && KeyOf(w.store.cache.value) != "" && Settling.SettledFor(kept, uri)
    && Server(w.store).Some? && Server(w.store).value.status == st
  }

  /** Secrets and sink are found as before. */
  predicate FindsAgain(spec: Spec, uri: Option<string>, o: Oracle) {
    Undisturbed(o) && Settling.Available(spec, o) && Settling.Resolved(spec, o) == uri
  }

  /** Such a run finds nothing to do before its writes but children. */
  lemma HiddenStatusBody(w: World, original: Source, uri: Option<string>, o: Oracle)
    requires FindsAgain(original.spec, uri, o) && !original.deleting && KeyOf(original) != "" && Settling.SettledFor(original.status, uri)
    ensures var b := Body(w, original, o);
      && b.world.store == w.store && b.world.ledger.created == w.ledger.created
      && b.source == original.(finalizers := b.source.finalizers)
      && (b.source.finalizers == original.finalizers || b.source.finalizers == F.Add(original.finalizers))
    ensures !o.listDeploymentsFails && !o.listServicesFails && HasReceiver(w.kube.deployments, original) && Served(w, original)
      ==> Body(w, original, o) == Step(w, original.(finalizers := F.Add(original.finalizers)), Success)
  {
    hide SettleStatus, HasReceiver, Settling.SettledFor, ChooseService, F.Add;
    Resting(w);
    HiddenStatusSettles(original.spec, original.status, uri, o);
    AvailableSettles(original.spec, original.status, o);
    Resting(AddReceiver(w, original, o));
    ServedSame(w, original, original.(finalizers := F.Add(original.finalizers)));
  }

  lemma HiddenStatusSettles(spec: Spec, st: Status, uri: Option<string>, o: Oracle)
    requires FindsAgain(spec, uri, o) && Settling.SettledFor(st, uri)
    ensures SettleStatus(spec, st, o).status == st
  {
    Settling.SettleOnce(spec, st, o);
  }

  lemma HiddenStatusWrite(w: World, src: Source, o: Oracle, spec: Spec, kept: Status, st: Status, uri: Option<string>)
    requires Undisturbed(o) && StatusHidden(w, spec, kept, st, uri) && F.OURS in src.finalizers
    ensures StatusHidden(Update(w, src, o).0, spec, kept, st, uri) && Update(w, src, o).0.ledger == w.ledger
  {
    hide Settling.SettledFor;
    Resting(w.(store := w.store.(cache := Some(w.store.cache.value.(finalizers := src.finalizers)))));
  }

  lemma HiddenStatusRun(w: World, o: Oracle, spec: Spec, kept: Status, st: Status, uri: Option<string>)
    requires FindsAgain(spec, uri, o) && StatusHidden(w, spec, kept, st, uri) && !RunOnce(w, o).1.Panicked?
    ensures var w' := RunOnce(w, o).0; StatusHidden(w', spec, kept, st, uri) && w'.ledger.created == w.ledger.created
  {
    hide Body, Update, Settling.SettledFor, Settling.Available, Settling.Resolved, F.Add;
    if !o.listerFails {
      var original := w.store.cache.value;
      HiddenStatusBody(w, original, uri, o);
      var b := Body(w, original, o);
      F.AddRemoveMembers(original.finalizers);
      Resting(b.world);
      if b.source.finalizers != original.finalizers {
        HiddenStatusWrite(b.world, b.source, o, spec, kept, st, uri);
      }
    }
  }

  lemma {:induction false} HiddenStatusRuns(w: World, os: seq<Oracle>, spec: Spec, kept: Status, st: Status, uri: Option<string>)
    requires (forall o :: o in os ==> FindsAgain(spec, uri, o)) && StatusHidden(w, spec, kept, st, uri) && NonePanics(w, os)
    ensures StatusHidden(Runs(w, os), spec, kept, st, uri) && Runs(w, os).ledger.created == w.ledger.created
    decreases |os|
  {
    hide RunOnce, FindsAgain, Settling.SettledFor;
    if os != [] {
      HiddenStatusRun(w, os[0], spec, kept, st, uri);
      HiddenStatusRuns(Reconcile(w, os[0]).0, os[1..], spec, kept, st, uri);
    }
  }

  /** A refused status write leaves the hook ID in the cached object only. */
  lemma StatusRefusal(w: World, s: Source, original: Source, o: Oracle, uri: Option<string>)
    requires Undisturbed(o) && o.updateStatus.Refused? && Server(w.store).Some? && w.store.cache == Some(original) && !original.deleting
    requires s.status != original.status && KeyOf(s) != "" && Settling.SettledFor(s.status, uri)
    ensures var r := UpdateStatus(w, s, o);
      && !r.1 && r.0.ledger == w.ledger
      && StatusHidden(r.0, original.spec, s.status, Server(w.store).value.status, uri)
  {
    hide Settling.SettledFor;
    Resting(w.(store := w.store.(cache := Some(original.(status := s.status)))));
  }

  /**
   A refused status write is not retried either: as long as secrets and sink are found as before, and without
   delivery or panic, no number of runs writes the status to the server, or registers another hook, while the cached
   object shows the ID. The next version that is delivered, or a restart, takes the ID away.
   */
  lemma RefusedStatusIsNotRetried(w: World, s: Source, original: Source, o: Oracle, os: seq<Oracle>, uri: Option<string>)
    requires Undisturbed(o) && o.updateStatus.Refused? && Server(w.store).Some? && w.store.cache == Some(original) && !original.deleting
    requires s.status != original.status && KeyOf(s) != "" && Settling.SettledFor(s.status, uri)
    requires (forall o' :: o' in os ==> FindsAgain(original.spec, uri, o')) && NonePanics(UpdateStatus(w, s, o).0, os)
    ensures var w' := Runs(UpdateStatus(w, s, o).0, os);
      && Server(w'.store).Some? && Server(w'.store).value.status == Server(w.store).value.status
      && w'.store.cache.Some? && w'.store.cache.value.status == s.status && w'.ledger.created == w.ledger.created
      && var back := Restarted(w').store.cache; back.Some? && back.value.status == Server(w.store).value.status
  {
    hide UpdateStatus, Settling.SettledFor, FindsAgain;
    StatusRefusal(w, s, original, o, uri);
    HiddenStatusRuns(UpdateStatus(w, s, o).0, os, original.spec, s.status, Server(w.store).value.status, uri);
  }

  /** Nor does anybody notice: with receiver, address and finalizer in place such a run returns nil and changes nothing. */
  lemma HiddenStatusIsSilent(w: World, o: Oracle, spec: Spec, kept: Status, st: Status, uri: Option<string>)
    requires StatusHidden(w, spec, kept, st, uri) && FindsAgain(spec, uri, o)
    requires var c := w.store.cache.value;
      && !o.listerFails && !o.listDeploymentsFails && !o.listServicesFails
      && HasReceiver(w.kube.deployments, c) && Served(w, c) && F.Add(c.finalizers) == c.finalizers
    ensures Reconcile(w, o) == (w, Success)
  {
    hide Body, Settling.SettledFor, Settling.Available, Settling.Resolved, F.Add, HasReceiver, Served;
    HiddenStatusBody(w, w.store.cache.value, uri, o);
    Resting(w);
  }

  // ---------- Foreign finalizers ----------

  /**
   An accepted finalizer write replaces the list by the one computed at the start of the run: a foreign
   finalizer survives, or comes back, exactly when the object the run read had it.
   */
  lemma ForeignFinalizerKeptIff(w: World, original: Source, s: Source, o: Oracle, f: string)
    requires StoreOK(w.store) && w.store.cache.Some? && w.store.cache.value.finalizers != s.finalizers && Update(w, s, o).1
    requires s.finalizers == F.Add(original.finalizers) || s.finalizers == F.Remove(original.finalizers)
    requires f != F.OURS
    ensures var after := Server(Update(w, s, o).0.store);
      (after.Some? && f in after.value.finalizers) <==> f in original.finalizers
  {
    hide Update, F.Add, F.Remove;
    F.AddRemoveMembers(original.finalizers);
    var p1 := UpdateAccepted(w, s, o);
    UpdatedFinalizers(w, Update(w, s, o).0, p1);
  }

  lemma UpdatedFinalizers(w: World, w': World, p1: Source)
    requires Updated(w, w', p1) && w.store.log != []
    ensures var after := Server(w'.store); if after.Some? then after.value.finalizers == p1.finalizers else p1.finalizers == []
  {
  }

  // ---------- The Service ----------

  /** Every object of the source has its Deployment, and no Service that the selection loop picks has an address. */
  ghost predicate Unserved(w: World) {
    && (w.store.cache.Some? ==> Stranded(w, w.store.cache.value))
    && (Server(w.store).Some? ==> Stranded(w, Server(w.store).value))
  }

  ghost predicate Stranded(w: World, s: Source) {
    HasReceiver(w.kube.deployments, s) && !Served(w, s)
  }

  lemma StrandedStays(w: World, w': World, s: Source, t: Source)
    requires Stranded(w, s) && w'.kube == w.kube && t.uid == s.uid && t.name == s.name && t.namespace == s.namespace
    ensures Stranded(w', t)
  {
    SameIdentity(w.kube.deployments, w.kube.services, s, t);
  }

  lemma StrandedBody(w: World, original: Source, o: Oracle)
    requires Undisturbed(o) && Stranded(w, original)
    ensures var b := Body(w, original, o);
      && b.world.store == w.store && b.world.kube == w.kube && b.world.ledger == w.ledger
      && (!original.deleting ==> !b.result.Success?)
  {
    hide SettleStatus, Stranded, F.Add, F.Remove, DeleteWebhook, HasReceiver;
    Resting(w);
    if original.deleting {
      DeleteTouches(w, original.(finalizers := F.Remove(original.finalizers)), o);
    } else {
      var s1 := original.(status := SettleStatus(original.spec, original.status, o).status);
      StrandedStays(w, w, original, s1);
      StrandedRegister(w, s1, o);
    }
  }

  lemma StrandedRegister(w: World, s: Source, o: Oracle)
    requires Undisturbed(o) && Stranded(w, s)
    ensures HasReceiver(w.kube.deployments, s)
    ensures var b := RegisterHook(w, s, o); b.world == w && !b.result.Success?
  {
    Resting(w);
    SameChoice(w.kube.services, s, s.(finalizers := F.Add(s.finalizers)));
  }

  /** Same object, other status or finalizers. */
  ghost predicate SameObject(s: Source, t: Source) { t.uid == s.uid && t.name == s.name && t.namespace == s.namespace }

  /** The writes of an undisturbed run leave the objects what they are. */
  ghost predicate OnlyRewrites(w: World, w': World) {
    && w' == w.(store := w'.store)
    && (w'.store.cache.Some? ==> w.store.cache.Some? && SameObject(w.store.cache.value, w'.store.cache.value))
    && (Server(w'.store).Some? ==> Server(w.store).Some? && SameObject(Server(w.store).value, Server(w'.store).value))
  }

  lemma StatusRewrites(w: World, original: Source, s: Source, o: Oracle)
    requires Undisturbed(o)
    ensures OnlyRewrites(w, WriteStatus(w, original, s, o).0)
  {
    Resting(w);
    if w.store.cache.Some? { Resting(w.(store := w.store.(cache := Some(w.store.cache.value.(status := s.status))))); }
  }

  lemma FinalizersRewrite(w: World, original: Source, s: Source, o: Oracle)
    requires Undisturbed(o)
    ensures OnlyRewrites(w, WriteFinalizers(w, original, s, o).0)
  {
    Resting(w);
    if w.store.cache.Some? { Resting(w.(store := w.store.(cache := Some(w.store.cache.value.(finalizers := s.finalizers))))); }
  }

  lemma UnservedStays(w: World, w': World)
    requires Unserved(w) && w'.kube == w.kube
    requires w'.store == w.store || OnlyRewrites(w, w') || (w'.store.cache == Server(w.store) == Server(w'.store))
    ensures Unserved(w')
  {
    hide Stranded;
    if w.store.cache.Some? && w'.store.cache.Some? && SameObject(w.store.cache.value, w'.store.cache.value) {
      StrandedStays(w, w', w.store.cache.value, w'.store.cache.value);
    }
    if Server(w.store).Some? && Server(w'.store).Some? && SameObject(Server(w.store).value, Server(w'.store).value) {
      StrandedStays(w, w', Server(w.store).value, Server(w'.store).value);
    }
  }

  lemma UnservedRun(w: World, o: Oracle)
    requires Undisturbed(o) && Unserved(w)
    ensures var r := RunOnce(w, o);
      && Unserved(r.0) && r.0.kube == w.kube && r.0.ledger == w.ledger
      && (w.store.cache.Some? && !w.store.cache.value.deleting ==> !r.1.Success?)
  {
    hide Unserved, OnlyRewrites, Stranded, Body, WriteStatus, WriteFinalizers, Server;
    if !o.listerFails && w.store.cache.Some? {
      var original := w.store.cache.value;
      UnservedCache(w);
      StrandedBody(w, original, o);
      var b := Body(w, original, o);
      UnservedStays(w, b.world);
      if b.result.Panicked? {
        RestartStays(b.world);
      } else {
        var a := WriteStatus(b.world, original, b.source, o);
        StatusRewrites(b.world, original, b.source, o);
        RewriteStays(b.world, a.0);
        FinalizersRewrite(a.0, original, b.source, o);
        RewriteStays(a.0, WriteFinalizers(a.0, original, b.source, o).0);
      }
    }
  }

  lemma UnservedCache(w: World)
    requires Unserved(w) && w.store.cache.Some?
    ensures Stranded(w, w.store.cache.value)
  {
  }

  lemma RestartStays(w: World)
    requires Unserved(w)
    ensures Unserved(Restarted(w)) && Restarted(w).kube == w.kube && Restarted(w).ledger == w.ledger
  {
    UnservedStays(w, Restarted(w));
  }

  lemma RewriteStays(w: World, w': World)
    requires Unserved(w) && OnlyRewrites(w, w')
    ensures Unserved(w') && w'.kube == w.kube && w'.ledger == w.ledger
  {
    UnservedStays(w, w');
  }

  /**
   A Service that was not created with its Deployment is never created: the Deployment makes every later
   run skip its creation, so without help from outside no run of the live source ever succeeds.
   */
  lemma {:induction false} ServiceIsNotRetried(w: World, os: seq<Oracle>)
    requires Unserved(w) && forall o :: o in os ==> Undisturbed(o)
    ensures var w' := Runs(w, os);
      && w'.kube == w.kube && w'.ledger.services == w.ledger.services
      && (w'.store.cache.Some? && !w'.store.cache.value.deleting ==> forall o :: Undisturbed(o) ==> !Reconcile(w', o).1.Success?)
    decreases |os|
  {
    hide Unserved, RunOnce, Undisturbed, Stranded;
    if os == [] {
      forall o | Undisturbed(o) ensures w.store.cache.Some? && !w.store.cache.value.deleting ==> !Reconcile(w, o).1.Success? {
        UnservedRun(w, o);
      }
    } else {
      UnservedRun(w, os[0]);
      var w1 := Reconcile(w, os[0]).0;
      UnservedStays(RunOnce(w, os[0]).0, w1);
      ServiceIsNotRetried(w1, os[1..]);
    }
  }

  /** How it comes to that: the Deployment was created, the Service refused, and its error dropped. */
  lemma RefusedServiceStrands(w: World, s: Source, o: Oracle)
    requires Undisturbed(o) && o.createDeployment.Done? && o.createService.Refused?
    requires forall v :: v in w.kube.services ==> !Candidate(v, s)
    ensures var b := MakeChildren(w, s, o); b.result.Success? && Stranded(b.world, s)
  {
    Resting(w);
    Resting(AddReceiver(w, s, o));
    CreatedReceiverIsFound(w.kube.deployments, s, o.image, o.deploymentSuffix);
    ChosenIsCandidate(w.kube.services, s);
  }

  /** The first run of a source: secrets and sink are there, and neither its Deployment nor a Service that it would choose. */
  ghost predicate FirstRun(w: World, s: Source, o: Oracle) {
    && w.store.cache == Some(s) && !s.deleting && (Server(w.store).Some? ==> SameObject(s, Server(w.store).value))
    && Settling.Available(s.spec, o) && !o.listerFails && !o.listDeploymentsFails
    && !HasReceiver(w.kube.deployments, s) && forall v :: v in w.kube.services ==> !Candidate(v, s)
  }

  lemma AvailableSettles(spec: Spec, st: Status, o: Oracle)
    requires Settling.Available(spec, o)
    ensures SettleStatus(spec, st, o).result.Success?
  {
    hide Apply;
  }

  lemma FirstBody(w: World, s: Source, o: Oracle)
    requires FirstRun(w, s, o) && Undisturbed(o) && o.createDeployment.Done? && o.createService.Refused?
    ensures var b := Body(w, s, o);
      && b.result.Success? && b.source == s.(status := b.source.status)
      && b.world.store == w.store && Stranded(b.world, s)
  {
    hide SettleStatus, HasReceiver, Stranded, Settling.Available, Candidate;
    AvailableSettles(s.spec, s.status, o);
    var s1 := s.(status := SettleStatus(s.spec, s.status, o).status);
    SameIdentity(w.kube.deployments, [], s, s1);
    NoCandidate(w, s, s1);
    RefusedServiceStrands(w, s1, o);
    ChildrenKeepStore(w, s1, o);
    Resting(w);
    StrandedStays(Body(w, s, o).world, Body(w, s, o).world, s1, s);
  }

  lemma NoCandidate(w: World, s: Source, s1: Source)
    requires s1.name == s.name && s1.namespace == s.namespace && forall v :: v in w.kube.services ==> !Candidate(v, s)
    ensures forall v :: v in w.kube.services ==> !Candidate(v, s1)
  {
  }

  lemma StrandedUnserves(w: World, s: Source)
    requires Stranded(w, s) && w.store.cache == Some(s) && (Server(w.store).Some? ==> SameObject(s, Server(w.store).value))
    ensures Unserved(w)
  {
    hide Stranded;
    if Server(w.store).Some? { StrandedStays(w, w, s, Server(w.store).value); }
  }

  /** The finalizers of the copy are those of the cached object, so only the status is written. */
  lemma StatusOnly(w: World, s: Source, src: Source, o: Oracle)
    requires Undisturbed(o) && w.store.cache == Some(s) && src.finalizers == s.finalizers
    requires Server(w.store).Some? ==> SameObject(s, Server(w.store).value)
    ensures var r := WriteBack(w, s, src, Success, o);
      && OnlyRewrites(w, r.0) && (Fresh(w.store) && Server(w.store).Some? && o.updateStatus.Done? ==> r.1.Success?)
  {
    hide StoreOK;
    StatusRewrites(w, s, src, o);
    Resting(w);
    Resting(WriteStatus(w, s, src, o).0);
    if w.store.cache.Some? { Resting(w.(store := w.store.(cache := Some(s.(status := src.status))))); }
  }

  /**
   The whole course of a refused Service: the first run creates the Deployment, loses the Service and
   returns nil; as long as nobody else helps, no later run creates the Service, and none succeeds on the
   live source.
   */
  lemma RefusedServiceIsForEver(w: World, s: Source, o: Oracle, os: seq<Oracle>)
    requires FirstRun(w, s, o) && Undisturbed(o) && o.createDeployment.Done? && o.createService.Refused?
    requires forall o' :: o' in os ==> Undisturbed(o')
    ensures var w1, w' := Reconcile(w, o).0, Runs(Reconcile(w, o).0, os);
      && (Fresh(w.store) && Server(w.store).Some? && o.updateStatus.Done? ==> Reconcile(w, o).1.Success?)
      && w'.kube == w1.kube && w'.ledger.services == w.ledger.services
      && (w'.store.cache.Some? && !w'.store.cache.value.deleting ==> forall o' :: Undisturbed(o') ==> !Reconcile(w', o').1.Success?)
  {
    hide FirstRun, Body, Unserved, Stranded, WriteBack, Undisturbed, OnlyRewrites, Runs;
    AtFirst(w, s, o);
    FirstBody(w, s, o);
    FirstServices(w, s, o);
    var b := Body(w, s, o);
    StatusOnly(b.world, s, b.source, o);
    StrandedUnserves(b.world, s);
    RewriteStays(b.world, RunOnce(w, o).0);
    UnservedStays(RunOnce(w, o).0, Reconcile(w, o).0);
    ServiceIsNotRetried(Reconcile(w, o).0, os);
  }

  lemma AtFirst(w: World, s: Source, o: Oracle)
    requires FirstRun(w, s, o)
    ensures w.store.cache == Some(s) && !o.listerFails && (Server(w.store).Some? ==> SameObject(s, Server(w.store).value))
  {
  }

  lemma FirstServices(w: World, s: Source, o: Oracle)
    requires FirstRun(w, s, o) && Undisturbed(o) && o.createService.Refused?
    ensures Body(w, s, o).world.ledger.services == w.ledger.services
  {
    hide SettleStatus, HasReceiver, Settling.Available, Candidate, RegisterHook;
    AvailableSettles(s.spec, s.status, o);
    var s1 := s.(status := SettleStatus(s.spec, s.status, o).status);
    SameIdentity(w.kube.deployments, [], s, s1);
    Resting(w);
    Resting(AddReceiver(w, s1, o));
  }
}
