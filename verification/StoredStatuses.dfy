/**
 What every stored status, and every status in the cache, keeps over all histories: no hypothesis on the
 project URL, on GitLab or on the environment is needed.

 A stored hook ID is read back: every object that the cache holds, or can still be given, carries it or is a
 deleted object whose ID `finalize` has cleared. Stored IDs are IDs of this source's own hooks, and the
 conditions are coherent.
 */
module StoredStatuses {
  import opened Outcomes
  import opened Numerals
  import opened Statuses
  import opened Settling
  import opened Sources
  import opened ProjectUrls
  import opened Hooks
  import opened Resources
  import opened Protocol
  import opened Invariants
  import opened WriteBacks
  import opened Bookkeeping
  import opened CleanHistories
  import F = Finalizers

  // ---------- Reading back ----------

  /** What a run would read at version `i`: the cached object for the version last delivered, the stored one later. */
  function Entry(st: Store, i: nat): Option<Source>
    requires i < |st.log|
  {
    if i == st.seen then st.cache else st.log[i]
  }

  ghost predicate HasKey(e: Option<Source>) { e.Some? && KeyOf(e.value) != "" }

  /** The earlier object carries the later one's ID, or is deleted with the ID cleared; a deleted object stays deleted. */
  ghost predicate Reads(e: Option<Source>, later: Source) {
    && e.Some?
    && (KeyOf(e.value) == KeyOf(later) || (e.value.deleting && KeyOf(e.value) == ""))
    && (e.value.deleting ==> later.deleting)
  }

  ghost predicate ReadsBack(st: Store) {
    forall i, j :: st.seen <= i <= j < |st.log| && HasKey(st.log[j]) ==> Reads(Entry(st, i), st.log[j].value)
  }

  /** From one version of an object to the next the ID stays, unless a deleted object's ID is cleared. */
  ghost predicate Sticky(log: seq<Option<Source>>) {
    forall j :: 0 < j < |log| && HasKey(log[j - 1]) && log[j].Some? ==>
      KeyOf(log[j].value) == KeyOf(log[j - 1].value) || (log[j].value.deleting && KeyOf(log[j].value) == "")
  }

  ghost predicate Reading(st: Store) { StoreOK(st) && ReadsBack(st) && Sticky(st.log) }

  // ---------- What is stored ----------

  /** Coherent conditions, and Ready False only while some dependent is. */
  ghost predicate Good(st: Status) { Coherent(st) && !StaleFalse(st) }

  /** A status that this controller may store. */
  ghost predicate Own(w: World, st: Status) {
    ValidKey(w, st.webhookIDKey) && Good(st)
  }

  ghost predicate AllOwn(w: World) {
    && (forall id :: id in w.ledger.created ==> IsInt64(id))
    && (w.store.cache.Some? ==> Own(w, w.store.cache.value.status))
    && (forall i :: 0 <= i < |w.store.log| && w.store.log[i].Some? ==> Own(w, w.store.log[i].value.status))
  }

  ghost predicate Stored(w: World) { Reading(w.store) && AllOwn(w) }

  // ---------- The environment ----------

  /** A version that the environment, or a finalizer write, may append: status as before, or empty for a new object. */
  ghost predicate Succeeds(st: Store, entry: Option<Source>) {
    entry.Some? ==>
      && entry.value.rv == |st.log|
      && (match Server(st)
          case None => entry.value.status == EMPTY_STATUS
          case Some(cur) => entry.value.status == cur.status && (cur.deleting ==> entry.value.deleting))
  }

  lemma StepSucceeds(w: World, e: Event)
    requires StoreOK(w.store)
    ensures var st := StoreEvent(w, e);
      || st == w.store
      || (exists v: nat :: w.store.seen < v < |w.store.log| && st == w.store.(seen := v, cache := w.store.log[v]))
      || (exists entry :: Succeeds(w.store, entry) && st == w.store.(log := w.store.log + [entry]))
  {
    var st := StoreEvent(w, e);
    if st.log != w.store.log {
      var entry := st.log[|w.store.log|];
      assert Succeeds(w.store, entry) && st == w.store.(log := w.store.log + [entry]);
    }
  }

  lemma AppendedReads(st: Store, st': Store, entry: Option<Source>)
    requires Reading(st) && Succeeds(st, entry) && st' == st.(log := st.log + [entry])
    ensures Reading(st')
  {
    var n := |st.log|;
    assert Server(st) == st.log[n - 1];
    forall i, j | st'.seen <= i <= j < |st'.log| && HasKey(st'.log[j]) ensures Reads(Entry(st', i), st'.log[j].value) {
      if i < n {
        assert Entry(st', i) == Entry(st, i);
        var k := if j < n then j else n - 1;
        assert HasKey(st.log[k]) && Reads(Entry(st, i), st.log[k].value);
      }
    }
  }

  lemma DeliveredReads(st: Store, st': Store, v: nat)
    requires Reading(st) && st.seen < v < |st.log| && st' == st.(seen := v, cache := st.log[v])
    ensures Reading(st')
  {
    forall i, j | v <= i <= j < |st'.log| && HasKey(st'.log[j]) ensures Reads(Entry(st', i), st'.log[j].value) {
      assert Entry(st', i) == Entry(st, i);
    }
  }

  /** Own statuses stay own while hooks are only booked. */
  lemma OwnStays(w: World, w': World, st: Status)
    requires Own(w, st) && w.ledger.created <= w'.ledger.created
    ensures Own(w', st)
  {
  }

  lemma EmptyIsOwn(w: World)
    ensures Own(w, EMPTY_STATUS)
  {
    EmptyCoherent();
    DependentMembers();
  }

  lemma StepStored(w: World, e: Event)
    requires Stored(w)
    ensures Stored(EnvStep(w, e))
  {
    hide StoreEvent, ReadsBack, Sticky, Own;
    var w' := EnvStep(w, e);
    StepSucceeds(w, e);
    EmptyIsOwn(w);
    if w'.store.log != w.store.log {
      var entry :| Succeeds(w.store, entry) && w'.store == w.store.(log := w.store.log + [entry]);
      AppendedReads(w.store, w'.store, entry);
      AppendedOwn(w, w', entry);
    } else if w'.store != w.store {
      var v: nat :| w.store.seen < v < |w.store.log| && w'.store == w.store.(seen := v, cache := w.store.log[v]);
      DeliveredReads(w.store, w'.store, v);
      SameOwn(w, w');
    } else {
      SameOwn(w, w');
    }
  }

  lemma AppendedOwn(w: World, w': World, entry: Option<Source>)
    requires AllOwn(w) && w.store.log != [] && Succeeds(w.store, entry) && w'.store == w.store.(log := w.store.log + [entry])
    requires w'.ledger == w.ledger
    ensures AllOwn(w')
  {
    EmptyIsOwn(w);
    assert Server(w.store) == w.store.log[|w.store.log| - 1];
    SameLedgerOwn(w, w');
    hide Own;
  }

  lemma SameLedgerOwn(w: World, w': World)
    requires w'.ledger.created == w.ledger.created
    ensures forall st :: Own(w, st) <==> Own(w', st)
  {
  }

  /** No new version, and a cache that holds a stored one or the old object. */
  lemma SameOwn(w: World, w': World)
    requires AllOwn(w) && w'.store.log == w.store.log && w'.ledger.created == w.ledger.created
    requires w'.store.cache == w.store.cache || (w'.store.seen < |w.store.log| && w'.store.cache == w.store.log[w'.store.seen])
    ensures AllOwn(w')
  {
    SameLedgerOwn(w, w');
    hide Own;
  }

  lemma {:induction false} StepsStored(w: World, es: seq<Event>)
    requires Stored(w)
    ensures Stored(EnvSteps(w, es))
    decreases |es|
  {
    hide Stored;
    if es != [] {
      StepStored(w, es[0]);
      StepsStored(EnvStep(w, es[0]), es[1..]);
    }
  }

  // ---------- Conditions over one run ----------

  lemma InitializeGood(st: Status, now: int)
    requires Good(st)
    ensures Good(Apply(st, InitializeConditions, now))
  {
    DependentMembers();
    ApplyCoherent(st, InitializeConditions, now);
    var c1 := InitializeOne(st.conditions, SecretsProvided, now);
    InitializeFacts(st.conditions, SecretsProvided, now);
    InitializeFacts(c1, SinkProvided, now);
    InitializeFacts(InitializeOne(c1, SinkProvided, now), Ready, now);
  }

  /** After a failure is marked, Ready is False for a reason that shows. */
  lemma FailureGood(st: Status, op: Op, now: int)
    requires Coherent(st) && (op.MarkNoSecrets? || op.MarkNoSink?)
    ensures Good(Apply(st, op, now))
  {
    DependentMembers();
    ApplyCoherent(st, op, now);
    match op
    case MarkNoSecrets(reason, message) => MarkFalseFacts(st.conditions, SecretsProvided, reason, message, now);
    case MarkNoSink(reason, message) => MarkFalseFacts(st.conditions, SinkProvided, reason, message, now);
  }

  /** The sink decides: whatever MarkSecrets has left behind, Ready is right after MarkSink. */
  lemma SinkGood(st: Status, uri: string, now: int)
    requires Coherent(st) && StatusOf(st.conditions, SecretsProvided) == Some(True)
    ensures Good(Apply(st, MarkSink(uri), now))
  {
    DependentMembers();
    ApplyCoherent(st, MarkSink(uri), now);
    if uri != "" {
      MarkTrueFacts(st.conditions, SinkProvided, now);
    } else {
      MarkUnknownFacts(st.conditions, SinkProvided, "SinkEmpty", "Sink has resolved to empty.", now);
    }
  }

  /** The status that a run has settled, if it gets to write one. */
  lemma SettledGood(spec: Spec, st: Status, o: Oracle)
    requires Good(st) && !SettleStatus(spec, st, o).result.Panicked?
    ensures Good(SettleStatus(spec, st, o).status)
  {
    DependentMembers();
    var s0 := Apply(st, InitializeConditions, o.now);
    InitializeGood(st, o.now);
    ApplyCoherent(s0, MarkSecrets, o.now);
    MarkTrueFacts(s0.conditions, SecretsProvided, o.now);
    hide Apply, Coherent, StaleFalse;
    var a := SettleSecrets(spec, st, o);
    if a.result != Success {
      var op := if o.accessToken.Missing? then MarkNoSecrets("AccessTokenNotFound", o.accessToken.error)
                else MarkNoSecrets("SecretTokenNotFound", o.secretToken.error);
      FailureGood(s0, op, o.now);
    } else {
      SecretsHeld(s0, o.now);
      if spec.sink.Some? && o.sink.Missing? {
        FailureGood(a.status, MarkNoSink("NotFound", o.sink.error), o.now);
      } else if spec.sink.Some? {
        SinkGood(a.status, o.sink.value, o.now);
      } else if spec.uri.Some? {
        SinkGood(a.status, spec.uri.value, o.now);
      } else {
        FailureGood(a.status, MarkNoSink("NotFound", NIL_ERROR), o.now);
      }
    }
  }

  lemma SecretsHeld(st: Status, now: int)
    requires Coherent(st)
    ensures var r := Apply(st, MarkSecrets, now); Coherent(r) && StatusOf(r.conditions, SecretsProvided) == Some(True)
  {
    DependentMembers();
    ApplyCoherent(st, MarkSecrets, now);
    MarkTrueFacts(st.conditions, SecretsProvided, now);
  }

  // ---------- A run in progress ----------

  /** What the run has read agrees with everything that is in the cache or still to come. */
  ghost predicate Reader(st: Store, original: Source) {
    && (forall j :: st.seen <= j < |st.log| && HasKey(st.log[j]) ==> Reads(Some(original), st.log[j].value))
    && (HasKey(st.cache) && original.deleting ==> st.cache.value.deleting)
  }

  ghost predicate Underway(w: World, original: Source) { Stored(w) && Reader(w.store, original) }

  /** What a run can make of the ID it has read. */
  ghost predicate MayHold(original: Source, key: string) {
    || key == KeyOf(original)
    || (key == "" && original.deleting)
    || (KeyOf(original) == "" && !original.deleting)
  }

  lemma RunReads(w: World, original: Source)
    requires Stored(w) && w.store.cache == Some(original)
    ensures Underway(w, original) && Own(w, original.status)
  {
    forall j | w.store.seen <= j < |w.store.log| && HasKey(w.store.log[j]) ensures Reads(Some(original), w.store.log[j].value) {
      assert Reads(Entry(w.store, w.store.seen), w.store.log[j].value);
    }
  }

  lemma StepReader(w: World, e: Event, original: Source)
    requires StoreOK(w.store) && Reader(w.store, original)
    ensures Reader(EnvStep(w, e).store, original)
  {
    hide StoreEvent;
    var st, st' := w.store, EnvStep(w, e).store;
    StepSucceeds(w, e);
    if st'.log != st.log {
      var entry :| Succeeds(st, entry) && st' == st.(log := st.log + [entry]);
      assert Server(st) == st.log[|st.log| - 1];
      if HasKey(entry) { assert Reads(Some(original), st.log[|st.log| - 1].value); }
    }
  }

  lemma {:induction false} StepsUnderway(w: World, es: seq<Event>, original: Source)
    requires Underway(w, original)
    ensures Underway(EnvSteps(w, es), original)
    decreases |es|
  {
    hide EnvStep, Stored, Reader;
    if es != [] {
      StepStored(w, es[0]);
      StoredOK(w);
      StepReader(w, es[0], original);
      StepsUnderway(EnvStep(w, es[0]), es[1..], original);
    }
  }

  lemma StoredOK(w: World)
    requires Stored(w)
    ensures StoreOK(w.store)
  {
  }

  /** GitLab and the children do not touch the store; booked IDs are 64-bit. */
  lemma UnderwayBooks(w: World, w': World, original: Source)
    requires Underway(w, original) && w'.store == w.store && w.ledger.created <= w'.ledger.created
    requires forall id :: id in w'.ledger.created ==> id in w.ledger.created || IsInt64(id)
    ensures Underway(w', original)
  {
    forall st | Own(w, st) ensures Own(w', st) { OwnStays(w, w', st); }
    hide Own;
  }

  /** The body of the run: where it leaves the world, and what its working copy holds. */
  ghost predicate Worked(w: World, original: Source, b: Step) {
    && Underway(b.world, original)
    && MayHold(original, KeyOf(b.source))
    && (!b.result.Panicked? ==> Own(b.world, b.source.status))
  }

  lemma ChildrenWorked(w: World, original: Source, s: Source, o: Oracle)
    requires Underway(w, original) && MayHold(original, KeyOf(s)) && Own(w, s.status)
    ensures Worked(w, original, MakeChildren(w, s, o))
  {
    hide Underway, EnvSteps, Own;
    var w1 := EnvSteps(w, o.gaps.deployment);
    StepsUnderway(w, o.gaps.deployment, original);
    EnvStepsKeep(w, o.gaps.deployment);
    var w2 := AddReceiver(w1, s, o);
    UnderwayAlike(w1, w2, original);
    StepsUnderway(w2, o.gaps.service, original);
    EnvStepsKeep(w2, o.gaps.service);
    UnderwayAlike(EnvSteps(w2, o.gaps.service), AddService(EnvSteps(w2, o.gaps.service), s, o), original);
    SameLedgerOwn(w, MakeChildren(w, s, o).world);
  }

  lemma UnderwayAlike(w: World, w': World, original: Source)
    requires Underway(w, original) && w'.store == w.store && w'.ledger.created == w.ledger.created
    ensures Underway(w', original)
  {
    UnderwayBooks(w, w', original);
  }

  lemma CreateWorked(w: World, original: Source, s: Source, domain: string, o: Oracle)
    requires Underway(w, original) && KeyOf(s) == KeyOf(original) == "" && !original.deleting && Own(w, s.status)
    ensures Worked(w, original, CreateWebhook(w, s, domain, o))
  {
    hide Underway, AddressOf, HookConfigOf, Coherent, StaleFalse;
    var b := CreateWebhook(w, s, domain, o);
    AddsInt64(w, s, domain, o);
    UnderwayBooks(w, b.world, original);
    OwnStays(w, b.world, s.status);
    if b.result.Success? { HeldIsOwn(w, s, domain, o); }
  }

  lemma AddsInt64(w: World, s: Source, domain: string, o: Oracle)
    ensures var w' := CreateWebhook(w, s, domain, o).world;
      w'.store == w.store && (w'.ledger.created == w.ledger.created || (IsInt64(o.hookId) && w'.ledger.created == w.ledger.created + {o.hookId}))
  {
    hide AddressOf, HookConfigOf;
  }

  lemma HeldIsOwn(w: World, s: Source, domain: string, o: Oracle)
    requires Good(s.status)
    ensures var b := CreateWebhook(w, s, domain, o); b.result.Success? ==> Own(b.world, b.source.status)
  {
    hide AddressOf, HookConfigOf, Coherent;
    var b := CreateWebhook(w, s, domain, o);
    if b.result.Success? {
      assert o.hookId in b.world.ledger.created && KeyOf(b.source) == Itoa(o.hookId);
      KeyIsNoCondition(s.status, Itoa(o.hookId));
    }
  }

  lemma KeyIsNoCondition(st: Status, key: string)
    requires Good(st)
    ensures Good(st.(webhookIDKey := key))
  {
  }

  lemma RegisterWorked(w: World, original: Source, s: Source, o: Oracle)
    requires Underway(w, original) && KeyOf(s) == KeyOf(original) && !original.deleting && Own(w, s.status)
    ensures Worked(w, original, RegisterHook(w, s, o))
  {
    hide Underway, CreateWebhook, F.Add, ChooseService, EnvSteps, Own;
    StepsUnderway(w, o.gaps.services, original);
    EnvStepsKeep(w, o.gaps.services);
    var s1 := s.(finalizers := F.Add(s.finalizers));
    var w1 := EnvSteps(w, o.gaps.services);
    SameLedgerOwn(w, w1);
    StepsUnderway(w1, o.gaps.hook, original);
    EnvStepsKeep(w1, o.gaps.hook);
    var w2 := EnvSteps(w1, o.gaps.hook);
    SameLedgerOwn(w, w2);
    var svc := ChooseService(w1.kube.services, s1);
    if svc.Some? && svc.value.ingress != [] && svc.value.nodePorts != [] && KeyOf(s) == "" {
      CreateWorked(w2, original, s1, svc.value.ingress[0] + ":" + Itoa(svc.value.nodePorts[0]), o);
    }
  }

  lemma FinalizeWorked(w: World, original: Source, o: Oracle)
    requires Underway(w, original) && original.deleting && Own(w, original.status)
    ensures Worked(w, original, Finalize(w, original, o))
  {
    hide Underway, EnvSteps, AddressOf, Delete, F.Remove, Coherent, StaleFalse, Apply;
    StepsUnderway(w, o.gaps.hook, original);
    EnvStepsKeep(w, o.gaps.hook);
    var w1 := EnvSteps(w, o.gaps.hook);
    SameLedgerOwn(w, w1);
    var s1 := original.(finalizers := F.Remove(original.finalizers));
    DeleteTouches(w1, s1, o);
    UnderwayAlike(w1, DeleteWebhook(w1, s1, o).world, original);
    SameLedgerOwn(w, DeleteWebhook(w1, s1, o).world);
    KeyIsNoCondition(original.status, "");
    if o.accessToken.Missing? {
      FailureGood(original.status, MarkNoSecrets("AccessTokenNotFound", o.accessToken.error), o.now);
      ApplyCoherent(original.status, MarkNoSecrets("AccessTokenNotFound", o.accessToken.error), o.now);
    }
  }

  lemma BodyWorked(w: World, original: Source, o: Oracle)
    requires Stored(w) && w.store.cache == Some(original)
    ensures Worked(w, original, Body(w, original, o))
  {
    hide Stored, Reader, Own, MakeChildren, RegisterHook, Finalize, SettleStatus, HasReceiver, EnvSteps;
    RunReads(w, original);
    if original.deleting {
      FinalizeWorked(w, original, o);
    } else {
      var a := SettleStatus(original.spec, original.status, o);
      SettleKeepsKey(original.spec, original.status, o);
      SettledOwn(w, original, o);
      var s1 := original.(status := a.status);
      var w1 := EnvSteps(w, o.gaps.list);
      StepsUnderway(w, o.gaps.list, original);
      EnvStepsKeep(w, o.gaps.list);
      SameLedgerOwn(w, w1);
      if a.result.Success? {
        ChildrenWorked(w1, original, s1, o);
        RegisterWorked(w1, original, s1, o);
      }
    }
  }

  lemma SettledOwn(w: World, original: Source, o: Oracle)
    requires Own(w, original.status)
    ensures var a := SettleStatus(original.spec, original.status, o); !a.result.Panicked? ==> Own(w, a.status)
  {
    SettleKeepsKey(original.spec, original.status, o);
    if !SettleStatus(original.spec, original.status, o).result.Panicked? { SettledGood(original.spec, original.status, o); }
  }

  // ---------- The writes of the run ----------

  lemma CarriedKey(st: Store, p1: Source, original: Source, key: string, j: nat)
    requires Reading(st) && Reader(st, original) && MayHold(original, key) && st.cache.Some?
    requires p1 == st.cache.value.(status := p1.status) && KeyOf(p1) == key
    requires st.seen <= j < |st.log| && HasKey(st.log[j])
    ensures Reads(Some(p1), st.log[j].value)
  {
    assert Reads(Some(original), st.log[j].value);
    assert Reads(Entry(st, st.seen), st.log[j].value);
  }

  /** Overwriting the status of the cached object by the working copy's. */
  lemma StatusInPlace(w: World, original: Source, s: Source)
    requires Underway(w, original) && MayHold(original, KeyOf(s)) && Own(w, s.status) && w.store.cache.Some?
    ensures Stored(InPlace(w, w.store.cache.value.(status := s.status)))
  {
    hide Own, MayHold, Sticky;
    var st, p1 := w.store, w.store.cache.value.(status := s.status);
    var w' := InPlace(w, p1);
    SameLedgerOwn(w, w');
    forall i, j | st.seen <= i <= j < |st.log| && HasKey(st.log[j]) ensures Reads(Entry(w'.store, i), st.log[j].value) {
      if i == st.seen { CarriedKey(st, p1, original, KeyOf(s), j); } else { assert Entry(w'.store, i) == Entry(st, i); }
    }
  }

  lemma FinalizersInPlace(w: World, s: Source)
    requires Stored(w) && w.store.cache.Some?
    ensures Stored(InPlace(w, w.store.cache.value.(finalizers := s.finalizers)))
  {
    hide Own, Sticky;
    var st := w.store;
    var w' := InPlace(w, st.cache.value.(finalizers := s.finalizers));
    SameLedgerOwn(w, w');
    forall i, j | st.seen <= i <= j < |st.log| && HasKey(st.log[j]) ensures Reads(Entry(w'.store, i), st.log[j].value) {
      assert Reads(Entry(st, i), st.log[j].value);
    }
  }

  /** The API server takes the status of the cached object, which is based on its current version. */
  lemma StatusTaken(w: World, w': World, p1: Source)
    requires Stored(w) && w.store.cache == Some(p1) && w.store.seen == |w.store.log| - 1 && Server(w.store).Some?
    requires w' == w.(store := Commit(w.store, Server(w.store).value.(status := p1.status)))
    ensures Stored(w')
  {
    hide Own;
    var st, n := w.store, |w.store.log|;
    var entry := Some(Server(st).value.(status := p1.status, rv := n));
    assert Server(st) == st.log[n - 1] && w'.store == st.(log := st.log + [entry]);
    SameLedgerOwn(w, w');
    if HasKey(st.log[n - 1]) { assert Reads(Entry(st, st.seen), st.log[n - 1].value); }
    forall i, j | st.seen <= i <= j < n + 1 && HasKey(w'.store.log[j]) ensures Reads(Entry(w'.store, i), w'.store.log[j].value) {
      if j < n { assert Entry(w'.store, i) == Entry(st, i); }
    }
  }

  lemma StatusCallStored(w: World, original: Source, s: Source, o: Oracle)
    requires Underway(w, original) && MayHold(original, KeyOf(s)) && Own(w, s.status)
    requires w.store.cache.Some? && w.store.cache.value.status != s.status
    ensures Stored(UpdateStatus(w, s, o).0)
  {
    hide Reading, AllOwn, Own, Reader, MayHold;
    var p1 := w.store.cache.value.(status := s.status);
    var w0 := InPlace(w, p1);
    StatusInPlace(w, original, s);
    StepsStored(w0, o.gaps.statusCall);
    StoredOK(w);
    StoredOK(w0);
    StepsGrow(w0, o.gaps.statusCall);
    var w1 := EnvSteps(w0, o.gaps.statusCall);
    if Server(w1.store).Some? && p1.rv == Server(w1.store).value.rv {
      CallAttached(w, w1, p1);
      StatusTaken(w1, w1.(store := Commit(w1.store, Server(w1.store).value.(status := p1.status))), p1);
    }
  }

  lemma WriteStatusStored(w: World, original: Source, s: Source, o: Oracle)
    requires Underway(w, original) && MayHold(original, KeyOf(s)) && Own(w, s.status)
    ensures Stored(WriteStatus(w, original, s, o).0)
  {
    hide Reading, AllOwn, Own, Reader, MayHold;
    var w1 := EnvSteps(w, o.gaps.status);
    StepsUnderway(w, o.gaps.status, original);
    EnvStepsKeep(w, o.gaps.status);
    SameLedgerOwn(w, w1);
    if w1.store.cache.Some? && w1.store.cache.value.status != s.status {
      StatusCallStored(w1, original, s, o);
    }
  }

  lemma FinalizersTaken(w: World, w': World, p1: Source, reply: Reply)
    requires Stored(w) && w.store.cache == Some(p1) && w.store.seen == |w.store.log| - 1 && Server(w.store).Some?
    requires w' == w.(store := ApiUpdate(w.store, p1, reply).0)
    ensures Stored(w')
  {
    hide Own, ReadsBack, Sticky;
    if w'.store != w.store {
      var entry := w'.store.log[|w.store.log|];
      assert w'.store == w.store.(log := w.store.log + [entry]) && Succeeds(w.store, entry);
      AppendedReads(w.store, w'.store, entry);
      AppendedOwn(w, w', entry);
    }
  }

  lemma WriteFinalizersStored(w: World, original: Source, s: Source, o: Oracle)
    requires Stored(w)
    ensures Stored(WriteFinalizers(w, original, s, o).0)
  {
    hide Reading, AllOwn;
    var w1 := EnvSteps(w, o.gaps.update);
    StepsStored(w, o.gaps.update);
    if w1.store.cache.Some? && w1.store.cache.value.finalizers != s.finalizers {
      var p1 := w1.store.cache.value.(finalizers := s.finalizers);
      var w2 := InPlace(w1, p1);
      FinalizersInPlace(w1, s);
      StepsStored(w2, o.gaps.updateCall);
      StoredOK(w1);
      StoredOK(w2);
      StepsGrow(w2, o.gaps.updateCall);
      var w3 := EnvSteps(w2, o.gaps.updateCall);
      if Server(w3.store).Some? && p1.rv == Server(w3.store).value.rv {
        CallAttached(w1, w3, p1);
        FinalizersTaken(w3, w3.(store := ApiUpdate(w3.store, p1, o.update).0), p1, o.update);
      }
    }
  }

  // ---------- Histories ----------

  lemma RestartStored(w: World)
    requires Stored(w)
    ensures Stored(Restarted(w))
  {
    hide Own;
    assert Server(w.store) == w.store.log[|w.store.log| - 1];
    SameOwn(w, Restarted(w));
  }

  lemma RunStored(w: World, o: Oracle)
    requires Stored(w)
    ensures Stored(RunOnce(w, o).0)
  {
    hide Stored, Reader, MayHold, Own, Body, WriteStatus, WriteFinalizers, Restarted;
    if !o.listerFails && w.store.cache.Some? {
      var original := w.store.cache.value;
      BodyWorked(w, original, o);
      var b := Body(w, original, o);
      RestartStored(b.world);
      if !b.result.Panicked? {
        WriteStatusStored(b.world, original, b.source, o);
        WriteFinalizersStored(WriteStatus(b.world, original, b.source, o).0, original, b.source, o);
      }
    }
  }

  lemma ActStored(w: World, a: Action)
    requires Stored(w)
    ensures Stored(Act(w, a))
  {
    hide Reading, Own, RunOnce, EnvStep, Restarted;
    match a
    case Environment(e) => StepStored(w, e);
    case Restart => RestartStored(w);
    case Run(o) =>
      RunStored(w, o);
      SameOwn(RunOnce(w, o).0, Reconcile(w, o).0);
  }

  lemma {:induction false} ExecStored(w: World, actions: seq<Action>)
    requires Stored(w)
    ensures Stored(Exec(w, actions))
    decreases |actions|
  {
    hide Stored, Act;
    if actions != [] {
      ActStored(w, actions[0]);
      ExecStored(Act(w, actions[0]), actions[1..]);
    }
  }

  lemma InitialStored(w: World)
    requires Initial(w)
    ensures Stored(w)
  {
  }

  /**
   Readiness over all histories: every status that the server ever stored, and the one in the cache, is
   coherent and sorted, and its Ready is False only while a dependent condition is. The stale False that
   `MarkSecrets` can leave behind never gets out of the run that has made it.
   */
  lemma StatusesOverAllHistories(w0: World, actions: seq<Action>)
    requires Initial(w0)
    ensures var w := Exec(w0, actions);
      && (w.store.cache.Some? ==> Coherent(w.store.cache.value.status) && !StaleFalse(w.store.cache.value.status))
      && (forall i :: 0 <= i < |w.store.log| && w.store.log[i].Some?
            ==> Coherent(w.store.log[i].value.status) && !StaleFalse(w.store.log[i].value.status))
  {
    hide Coherent, StaleFalse, Reading;
    InitialStored(w0);
    ExecStored(w0, actions);
  }

  /**
   Over all histories a stored ID stays from version to version of an object, until `finalize` clears it on
   the deleted object.
   */
  lemma StoredIdStays(w0: World, actions: seq<Action>, j: nat)
    requires Initial(w0)
    ensures var log := Exec(w0, actions).store.log;
      0 < j < |log| && log[j - 1].Some? && KeyOf(log[j - 1].value) != "" && log[j].Some? ==>
        KeyOf(log[j].value) == KeyOf(log[j - 1].value) || (log[j].value.deleting && KeyOf(log[j].value) == "")
  {
    hide AllOwn, ReadsBack;
    InitialStored(w0);
    ExecStored(w0, actions);
  }
}
