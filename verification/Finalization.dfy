/**
 Deletion of a source: what `finalize` does for every outcome of its calls, how many rounds it takes
 until the deletion is unblocked, and when the hook is really removed.
 */
module Finalization {
  import opened Outcomes
  import opened Numerals
  import opened Statuses
  import opened Settling
  import opened Sources
  import opened ProjectUrls
  import opened Hooks
  import opened Protocol
  import opened Invariants
  import opened Accounting
  import opened Convergence
  import opened HookTheorems
  import opened StoredStatuses
  import opened Shadows
  import opened HookLeaks
  import F = Finalizers

  // ---------- One call of finalize ----------

  /** Why `finalize` would panic: no access token is selected, or the project URL has no path. */
  predicate FinalizePanics(s: Source, o: Oracle) {
    KeyOf(s) != "" && (s.spec.accessToken.None? || (o.accessToken.Found? && AddressOf(s.spec.projectURL).Panic?))
  }

  lemma DeleteOutcome(w: World, s: Source, o: Oracle)
    requires KeyOf(s) != ""
    ensures var b := DeleteWebhook(w, s, o);
      && (b.result.Success? <==> KeyOf(b.source) == "") && (b.result.Panicked? <==> AddressOf(s.spec.projectURL).Panic?)
      && b.source == s.(status := b.source.status) && (KeyOf(b.source) != "" ==> b.source == s)
  {
    hide AddressOf, Delete;
  }

  /** The ID is cleared exactly when nothing failed. */
  lemma FinalizeResult(w: World, s: Source, o: Oracle)
    ensures var b := Finalize(w, s, o);
      && b.source == s.(finalizers := F.Remove(s.finalizers), status := b.source.status)
      && (b.result.Success? <==> KeyOf(b.source) == "") && (KeyOf(b.source) != "" ==> KeyOf(b.source) == KeyOf(s))
      && (b.result.Panicked? <==> FinalizePanics(s, o))
  {
    hide AddressOf, DeleteWebhook, EnvSteps, F.Remove;
    if KeyOf(s) != "" {
      DeleteOutcome(EnvSteps(w, o.gaps.hook), s.(finalizers := F.Remove(s.finalizers)), o);
    }
  }

  /**
   For every outcome of the secret lookup and of the calls to GitLab the working copy loses our
   finalizer and keeps all others. The ID is cleared exactly when nothing failed, and then another
   `finalize` touches neither the copy nor the world, whatever the calls it could make would return.
   */
  lemma FinalizeOutcome(w: World, s: Source, o: Oracle, w': World, o': Oracle)
    ensures var b := Finalize(w, s, o);
      && (forall f :: f in b.source.finalizers <==> f in s.finalizers && f != F.OURS)
      && b.source == s.(finalizers := b.source.finalizers, status := b.source.status)
      && (b.result.Success? <==> KeyOf(b.source) == "") && (KeyOf(b.source) != "" ==> KeyOf(b.source) == KeyOf(s))
      && (b.result.Success? ==> Finalize(w', b.source, o') == Step(w', b.source, Success))
      && (b.result.Panicked? <==> FinalizePanics(s, o))
  {
    F.AddRemoveMembers(s.finalizers);
    F.AddRemoveAlgebra(s.finalizers);
    FinalizeResult(w, s, o);
    var b := Finalize(w, s, o);
    hide Finalize, F.Remove;
    if b.result.Success? { FinalizeAgain(w', b.source, o'); }
  }

  lemma FinalizeAgain(w: World, s: Source, o: Oracle)
    requires KeyOf(s) == "" && F.Remove(s.finalizers) == s.finalizers
    ensures Finalize(w, s, o) == Step(w, s, Success)
  {
  }

  /**
   With every call answered, the hook is removed exactly when the URL still addresses the project it was
   registered at; the ID is cleared anyway.
   */
  lemma HookRemovedIff(w: World, s: Source, o: Oracle, h: Hook)
    requires ValidGitLab(w.gitlab) && h in w.gitlab.hooks && IsInt64(h.id) && KeyOf(s) == Itoa(h.id)
    requires s.spec.accessToken.Some? && o.accessToken.Found? && !o.listHooksFails && o.deleteHook.Done? && o.gaps.hook == []
    requires AddressOf(s.spec.projectURL).Ok?
    ensures var b := Finalize(w, s, o);
      && b.result.Success? && KeyOf(b.source) == "" && b.world == w.(gitlab := b.world.gitlab)
      && (h.id in LiveIds(b.world.gitlab) <==> AddressOf(s.spec.projectURL) != Ok(h.address))
  {
    hide AddressOf;
    AtoiItoa(h.id);
    assert EnvSteps(w, []) == w;
    var a := AddressOf(s.spec.projectURL).value;
    DeleteNeedsAddress(w.gitlab, h, a, o.deleteHook);
    DeleteFacts(w.gitlab, a, KeyOf(s), o.listHooksFails, o.deleteHook);
  }

  // ---------- Rounds on a deleted source ----------

  /** The writes succeed and nobody interferes with them; the secret lookup and GitLab may answer as they like. */
  predicate WritesWork(o: Oracle) {
    && o.gaps.hook == [] && o.gaps.status == [] && o.gaps.statusCall == [] && o.gaps.updateCall == [] && DeliversOnly(o.gaps.update)
    && !o.listerFails && o.updateStatus.Done? && o.update.Done?
  }

  ghost predicate DeletedFresh(w: World, s: Source) {
    Fresh(w.store) && Server(w.store) == Some(s) && s.deleting && Sorted(s.status.conditions)
  }

  /** The store of `w'` is the store of `w` after an accepted write; the informer may not have seen it. */
  ghost predicate Written(w: World, w': World, entry: Option<Source>) {
    && |w'.store.log| > |w.store.log| && w'.store.seen < |w'.store.log|
    && (forall i :: 0 <= i < |w'.store.log| && w'.store.log[i].Some? ==> w'.store.log[i].value.rv == i)
    && Server(w'.store) == entry
    && (w'.store.seen == |w'.store.log| - 1 ==> w'.store.cache == entry)
  }

  lemma WrittenLatest(w: World, w': World, entry: Option<Source>)
    requires Written(w, w', entry)
    ensures Fresh(Latest(w'.store)) && Server(Latest(w'.store)) == entry
  {
  }

  /** Removing finalizers is accepted on the current version; removing the last one removes the object. */
  lemma DeletedUpdate(w: World, s: Source, src: Source, o: Oracle) returns (entry: Option<Source>)
    requires Fresh(w.store) && w.store.cache == Some(s) && s.deleting && WritesWork(o)
    requires src.finalizers != s.finalizers && forall f :: f in src.finalizers ==> f in s.finalizers
    ensures var r := Update(w, src, o); r.1 && r.0 == w.(store := r.0.store) && Written(w, r.0, entry)
    ensures entry == if src.finalizers == [] then None else Some(s.(finalizers := src.finalizers, rv := |w.store.log|))
  {
    entry := if src.finalizers == [] then None else Some(s.(finalizers := src.finalizers, rv := |w.store.log|));
    var w1 := w.(store := w.store.(cache := Some(s.(finalizers := src.finalizers))));
    assert EnvSteps(w1, []) == w1;
    assert Server(w1.store) == Some(s) && s.rv == |w.store.log| - 1;
  }

  lemma DeletedConflict(w: World, src: Source, o: Oracle)
    requires w.store.cache.Some? && Server(w.store).Some? && w.store.cache.value.rv != Server(w.store).value.rv
    requires WritesWork(o) && w.store.cache.value.finalizers != src.finalizers
    ensures var r := Update(w, src, o);
      !r.1 && r.0 == w.(store := w.store.(cache := Some(w.store.cache.value.(finalizers := src.finalizers))))
  {
    var w1 := w.(store := w.store.(cache := Some(w.store.cache.value.(finalizers := src.finalizers))));
    assert EnvSteps(w1, []) == w1;
  }

  lemma DeletedStatus(w: World, s: Source, src: Source, o: Oracle) returns (t: Source)
    requires Fresh(w.store) && w.store.cache == Some(s) && WritesWork(o) && src.status != s.status
    ensures t == s.(status := src.status, rv := |w.store.log|)
    ensures WriteStatus(w, s, src, o) == (w.(store := Store(w.store.log + [Some(t)], w.store.seen, Some(s.(status := src.status)))), true)
  {
    t := s.(status := src.status, rv := |w.store.log|);
    assert EnvSteps(w, []) == w;
    var w1 := w.(store := w.store.(cache := Some(s.(status := src.status))));
    assert EnvSteps(w1, []) == w1;
  }

  /**
   What both writes make of the server object: the status always lands, the finalizers unless they conflict
   with it.
   */
  ghost predicate Landed(s: Source, src: Source, entry: Option<Source>) {
    if src.finalizers != s.finalizers && src.finalizers == [] && entry.None? then true
    else
      && entry.Some? && entry.value == s.(rv := entry.value.rv, status := src.status, finalizers := entry.value.finalizers)
      && (entry.value.finalizers == src.finalizers || (entry.value.finalizers == s.finalizers && src.status != s.status))
  }

  /** What the rest of the run finds and does once the status has landed. */
  lemma AfterStatus(w: World, w1: World, s: Source, t: Source, src: Source, o: Oracle) returns (entry: Option<Source>)
    requires Fresh(w.store) && w.store.cache == Some(s) && s.deleting && WritesWork(o)
    requires t == s.(status := src.status, rv := |w.store.log|) && src.status != s.status
    requires w1 == w.(store := Store(w.store.log + [Some(t)], w.store.seen, Some(s.(status := src.status))))
    requires forall f :: f in src.finalizers ==> f in s.finalizers
    ensures var r, told := WriteFinalizers(w1, s, src, o), Deliver(|w.store.log|) in o.gaps.update;
      && r.0 == w.(store := r.0.store) && Written(w, r.0, entry)
      && r.1 == (told || src.finalizers == s.finalizers)
      && entry == if !told || src.finalizers == s.finalizers then Some(t)
                  else if src.finalizers == [] then None
                  else Some(t.(finalizers := src.finalizers, rv := |w.store.log| + 1))
  {
    hide Update;
    DeliveredIff(w1, o.gaps.update);
    var w2 := EnvSteps(w1, o.gaps.update);
    entry := Some(t);
    if s.finalizers != src.finalizers {
      if w2 == w1 {
        DeletedConflict(w1, src, o);
      } else {
        entry := DeletedUpdate(w2, t, src, o);
      }
    }
  }

  lemma DeletedWrites(w: World, s: Source, src: Source, result: Result, o: Oracle) returns (entry: Option<Source>)
    requires Fresh(w.store) && w.store.cache == Some(s) && s.deleting && WritesWork(o)
    requires src.status != s.status || src.finalizers != s.finalizers
    requires forall f :: f in src.finalizers ==> f in s.finalizers
    ensures var r := WriteBack(w, s, src, result, o);
      && r.0 == w.(store := r.0.store) && Written(w, r.0, entry) && Landed(s, src, entry)
      && (src.status != s.status && src.finalizers != s.finalizers ==>
            r.1 == if Deliver(|w.store.log|) in o.gaps.update then result else Failure)
    ensures Deliver(|w.store.log|) in o.gaps.update && src.finalizers != s.finalizers ==>
      if src.finalizers == [] then entry.None? else entry.Some? && entry.value.finalizers == src.finalizers
    ensures src.status != s.status && Deliver(|w.store.log|) !in o.gaps.update ==> entry.Some? && entry.value.finalizers == s.finalizers
  {
    if src.status == s.status {
      assert EnvSteps(w, []) == w;
      DeliveredNothing(w, o.gaps.update);
      entry := DeletedUpdate(w, s, src, o);
    } else {
      var t := DeletedStatus(w, s, src, o);
      entry := AfterStatus(w, WriteStatus(w, s, src, o).0, s, t, src, o);
    }
  }

  /** The lookup error has been written to the conditions. */
  ghost predicate Marked(st: Status, error: string) {
    && Holds(st.conditions, SecretsProvided, False, "AccessTokenNotFound", error)
    && Holds(st.conditions, Ready, False, "AccessTokenNotFound", error)
  }

  /** What can still delay the finalizer write: each item is settled by a status write that conflicts with it. */
  ghost function Delay(s: Source, error: string): nat {
    if F.OURS !in s.finalizers then 0
    else 1 + One(KeyOf(s) != "") + One(KeyOf(s) != "" && !Marked(s.status, error))
  }

  lemma MarkedOnce(st: Status, error: string, now: int)
    requires Sorted(st.conditions)
    ensures var st' := Apply(st, MarkNoSecrets("AccessTokenNotFound", error), now);
      Marked(st', error) && Sorted(st'.conditions) && (Marked(st, error) ==> st' == st) && st'.webhookIDKey == st.webhookIDKey
  {
    DependentMembers();
    MarkFalseHolds(st.conditions, SecretsProvided, "AccessTokenNotFound", error, now);
  }

  lemma FinalizeStatus(w: World, s: Source, o: Oracle, error: string)
    requires Sorted(s.status.conditions) && o.gaps.hook == [] && (o.accessToken.Missing? ==> o.accessToken.error == error)
    requires !FinalizePanics(s, o)
    ensures var b := Finalize(w, s, o);
      && b.world == w.(gitlab := b.world.gitlab) && Sorted(b.source.status.conditions)
      && (b.source.status == s.status || (KeyOf(s) != "" && (KeyOf(b.source) == "" || (!Marked(s.status, error) && Marked(b.source.status, error)))))
  {
    MarkedOnce(s.status, error, o.now);
    assert EnvSteps(w, []) == w;
    hide AddressOf, Delete, F.Remove, Marked;
  }

  /** What a round leaves of a deleted source: nothing, or an object closer to losing the finalizer. */
  ghost predicate Closer(s: Source, w': World, error: string) {
    && Fresh(w'.store)
    && (Server(w'.store).Some? ==>
          var t := Server(w'.store).value;
          DeletedFresh(w', t) && t.spec == s.spec && (Delay(t, error) < Delay(s, error) || Delay(t, error) == 0))
  }

  lemma LandedCloser(s: Source, src: Source, w': World, entry: Option<Source>, error: string)
    requires Landed(s, src, entry) && Fresh(w'.store) && Server(w'.store) == entry && s.deleting
    requires F.OURS !in src.finalizers && Sorted(src.status.conditions)
    requires src.status == s.status || (KeyOf(s) != "" && (KeyOf(src) == "" || (!Marked(s.status, error) && Marked(src.status, error))))
    ensures Closer(s, w', error)
  {
  }

  lemma UnwrittenRound(w: World, s: Source, b: Step, o: Oracle, error: string)
    requires DeletedFresh(w, s) && WritesWork(o) && b.world == w.(gitlab := b.world.gitlab)
    requires b.source.status == s.status && b.source.finalizers == s.finalizers && F.OURS !in s.finalizers
    ensures var r := WriteBack(b.world, s, b.source, b.result, o);
      var w1 := Charge(r.0, r.1);
      Closer(s, w1.(store := Latest(w1.store)), error)
  {
    assert EnvSteps(b.world, []) == b.world;
    DeliveredNothing(b.world, o.gaps.update);
    QuietLatest(b.world);
  }

  lemma RunOfDeleted(w: World, s: Source, o: Oracle)
    requires DeletedFresh(w, s) && WritesWork(o) && !FinalizePanics(s, o)
    ensures var b := Finalize(w, s, o); RunOnce(w, o) == WriteBack(b.world, s, b.source, b.result, o)
  {
    FinalizeResult(w, s, o);
    hide Finalize, FinalizePanics, WriteBack;
  }

  /** A round leaves the finalizer alone only if that brings the next round closer to removing it. */
  lemma DeletedRound(w: World, s: Source, o: Oracle, error: string)
    requires DeletedFresh(w, s) && WritesWork(o) && !FinalizePanics(s, o) && (o.accessToken.Missing? ==> o.accessToken.error == error)
    ensures Closer(s, Round(w, o), error)
  {
    hide Finalize, FinalizePanics, WriteBack, RunOnce, Closer, Marked, F.Remove;
    var b := Finalize(w, s, o);
    FinalizeResult(w, s, o);
    FinalizeStatus(w, s, o, error);
    F.AddRemoveMembers(s.finalizers);
    RunOfDeleted(w, s, o);
    if b.source.status != s.status || b.source.finalizers != s.finalizers {
      var entry := DeletedWrites(b.world, s, b.source, b.result, o);
      var w1 := Reconcile(w, o).0;
      WrittenLatest(b.world, w1, entry);
      LandedCloser(s, b.source, Round(w, o), entry, error);
    } else {
      UnwrittenRound(w, s, b, o, error);
    }
  }

  function Rounds(w: World, os: seq<Oracle>): World
    decreases |os|
  {
    if os == [] then w else Rounds(Round(w, os[0]), os[1..])
  }

  /** Every round can run, with one text for the lookup error, and no round panics. */
  predicate DeletionRounds(os: seq<Oracle>, spec: Spec, error: string) {
    && spec.accessToken.Some? && !AddressOf(spec.projectURL).Panic?
    && forall o :: o in os ==> WritesWork(o) && (o.accessToken.Missing? ==> o.accessToken.error == error)
  }

  lemma {:induction false} DeletionProgress(w: World, s: Source, os: seq<Oracle>, error: string)
    requires DeletedFresh(w, s) && DeletionRounds(os, s.spec, error) && (Delay(s, error) <= |os|)
    ensures !ServerHasOurs(Rounds(w, os))
    decreases |os|
  {
    if os != [] {
      var w1 := Round(w, os[0]);
      DeletedRound(w, s, os[0], error);
      if Server(w1.store).Some? {
        assert DeletionRounds(os[1..], s.spec, error);
        DeletionProgress(w1, Server(w1.store).value, os[1..], error);
      } else {
        NothingLeft(w1, os[1..]);
      }
    }
  }

  lemma {:induction false} NothingLeft(w: World, os: seq<Oracle>)
    requires Fresh(w.store) && Server(w.store).None?
    ensures Server(Rounds(w, os).store).None?
    decreases |os|
  {
    if os != [] {
      QuietLatest(w);
      assert Round(w, os[0]).store == w.store;
      NothingLeft(Round(w, os[0]), os[1..]);
    }
  }

  /**
   Finalization unblocks deletion, as far as it does: whatever the lookups and GitLab answer, three rounds
   whose writes work take our finalizer off the server, so that an object without other finalizers is gone.
   Needed are that `finalize` does not panic and that a failing lookup keeps saying the same; the two lemmas
   after this one show what happens otherwise.
   */
  lemma ThreeRoundsUnblock(w: World, s: Source, os: seq<Oracle>, error: string)
    requires DeletedFresh(w, s) && DeletionRounds(os, s.spec, error) && |os| >= 3
    ensures !ServerHasOurs(Rounds(w, os))
  {
    DeletionProgress(w, s, os, error);
  }

  // ---------- Deletions that stay blocked ----------

  /** The panic comes before anything is written, and the new process finds everything as it was. */
  lemma PanicRound(w: World, s: Source, o: Oracle)
    requires DeletedFresh(w, s) && FinalizePanics(s, o) && (s.spec.accessToken.None? || o.gaps.hook == [])
    ensures Round(w, o).store == w.store
  {
    hide AddressOf, Delete, F.Remove;
    assert EnvSteps(w, []) == w;
    FinalizeResult(w, s, o);
    QuietLatest(w);
  }

  /**
   A deletion is blocked for ever when `finalize` panics: the object holds a hook ID, and either its access
   token selector was removed, and then nothing else matters, or its URL was edited to one without a path, and
   then as long as the token is found. The stored object never changes again.
   */
  lemma {:induction false} PanicBlocksDeletion(w: World, s: Source, os: seq<Oracle>)
    requires DeletedFresh(w, s)
    requires forall o :: o in os ==> FinalizePanics(s, o) && (s.spec.accessToken.None? || o.gaps.hook == [])
    ensures Rounds(w, os).store == w.store
    decreases |os|
  {
    hide FinalizePanics, Round;
    if os != [] {
      PanicRound(w, s, os[0]);
      PanicBlocksDeletion(Round(w, os[0]), s, os[1..]);
    }
  }

  /** `Delete` returns without error: the ID is a number, the hooks can be listed, and a listed hook is removed. */
  predicate Answers(w: World, s: Source, o: Oracle) {
    && AddressOf(s.spec.projectURL).Ok? && Atoi(KeyOf(s)).Some? && !o.listHooksFails
    && (Registered(w.gitlab.hooks, AddressOf(s.spec.projectURL).value, Atoi(KeyOf(s)).value) ==> o.deleteHook.Done?)
  }

  /** `finalize` changes the status: it clears the ID, or has a new text for the missing token. */
  ghost predicate ChangesStatus(w: World, s: Source, o: Oracle) {
    KeyOf(s) != "" && if o.accessToken.Missing? then !Marked(s.status, o.accessToken.error) else Answers(w, s, o)
  }

  lemma StatusChangeIff(w: World, s: Source, o: Oracle)
    requires Sorted(s.status.conditions) && !FinalizePanics(s, o) && o.gaps.hook == []
    ensures Finalize(w, s, o).source.status != s.status <==> ChangesStatus(w, s, o)
  {
    hide AddressOf, F.Remove, Marked;
    assert EnvSteps(w, []) == w;
    if o.accessToken.Missing? { MarkedOnce(s.status, o.accessToken.error, o.now); }
  }

  /**
   What one round does to the finalizer, exactly: it stays if `finalize` panics, or if the status changes and
   the watch does not deliver the status write before the finalizer write.
   */
  lemma FinalizerStaysIff(w: World, s: Source, o: Oracle)
    requires DeletedFresh(w, s) && WritesWork(o) && F.OURS in s.finalizers
    ensures ServerHasOurs(Round(w, o)) <==>
      FinalizePanics(s, o) || (ChangesStatus(w, s, o) && Deliver(|w.store.log|) !in o.gaps.update)
  {
    hide Round, Finalize, ChangesStatus;
    if FinalizePanics(s, o) {
      PanicRound(w, s, o);
    } else {
      StatusChangeIff(w, s, o);
      FinalizerStays(w, s, o);
    }
  }

  lemma FinalizerStays(w: World, s: Source, o: Oracle)
    requires DeletedFresh(w, s) && WritesWork(o) && F.OURS in s.finalizers && !FinalizePanics(s, o)
    ensures ServerHasOurs(Round(w, o)) <==> Finalize(w, s, o).source.status != s.status && Deliver(|w.store.log|) !in o.gaps.update
  {
    hide Finalize, FinalizePanics, WriteBack, RunOnce, F.Remove;
    var b := Finalize(w, s, o);
    FinalizeResult(w, s, o);
    FinalizeWorld(w, s, o);
    F.AddRemoveMembers(s.finalizers);
    RunOfDeleted(w, s, o);
    var entry := DeletedWrites(b.world, s, b.source, b.result, o);
    WrittenLatest(b.world, Reconcile(w, o).0, entry);
  }

  lemma FinalizeWorld(w: World, s: Source, o: Oracle)
    requires o.gaps.hook == []
    ensures Finalize(w, s, o).world == w.(gitlab := Finalize(w, s, o).world.gitlab)
  {
    hide AddressOf, Delete, F.Remove;
    assert EnvSteps(w, []) == w;
  }

  /** Each lookup fails with a text other than the last one, and no status write is delivered in time. */
  predicate EverNewTexts(os: seq<Oracle>) {
    && (forall i :: 0 <= i < |os| ==> WritesWork(os[i]) && os[i].gaps.update == [] && os[i].accessToken.Missing?)
    && (forall i :: 0 < i < |os| ==> os[i].accessToken.error != os[i - 1].accessToken.error)
  }

  /** One such round writes the new text, and the finalizer write conflicts with that. */
  lemma NewTextRound(w: World, s: Source, o: Oracle) returns (t: Source)
    requires DeletedFresh(w, s) && WritesWork(o) && o.gaps.update == [] && o.accessToken.Missing?
    requires KeyOf(s) != "" && s.spec.accessToken.Some? && !Marked(s.status, o.accessToken.error) && F.OURS in s.finalizers
    ensures DeletedFresh(Round(w, o), t) && t.spec == s.spec && KeyOf(t) == KeyOf(s) && F.OURS in t.finalizers
    ensures Marked(t.status, o.accessToken.error)
  {
    hide Finalize, WriteBack, RunOnce, F.Remove, Marked, Holds;
    var b := Finalize(w, s, o);
    MissingTokenBody(w, s, o);
    FinalizeResult(w, s, o);
    F.AddRemoveMembers(s.finalizers);
    RunOfDeleted(w, s, o);
    var entry := DeletedWrites(b.world, s, b.source, b.result, o);
    WrittenLatest(b.world, Reconcile(w, o).0, entry);
    t := entry.value;
  }

  lemma MissingTokenBody(w: World, s: Source, o: Oracle)
    requires Sorted(s.status.conditions) && KeyOf(s) != "" && s.spec.accessToken.Some? && o.accessToken.Missing?
    ensures var b := Finalize(w, s, o);
      && !FinalizePanics(s, o) && b.world == w && KeyOf(b.source) == KeyOf(s) && Sorted(b.source.status.conditions)
      && Marked(b.source.status, o.accessToken.error)
  {
    hide F.Remove, Marked, Holds;
    MarkedOnce(s.status, o.accessToken.error, o.now);
  }

  lemma OneText(st: Status, a: string, b: string)
    requires Marked(st, a) && a != b
    ensures !Marked(st, b)
  {
  }

  /** A lookup that fails with ever new texts keeps the finalizer on the server for any number of rounds. */
  lemma {:induction false} NewTextsBlockDeletion(w: World, s: Source, os: seq<Oracle>)
    requires DeletedFresh(w, s) && KeyOf(s) != "" && s.spec.accessToken.Some? && F.OURS in s.finalizers && EverNewTexts(os)
    requires os != [] ==> !Marked(s.status, os[0].accessToken.error)
    ensures ServerHasOurs(Rounds(w, os))
    decreases |os|
  {
    hide Marked, Round, WritesWork;
    if os != [] {
      var t := NewTextRound(w, s, os[0]);
      if |os| > 1 { OneText(t.status, os[0].accessToken.error, os[1].accessToken.error); }
      assert EverNewTexts(os[1..]);
      NewTextsBlockDeletion(Round(w, os[0]), t, os[1..]);
    }
  }

  // ---------- Where rounds can start ----------

  /**
   Every reachable world, once the informer has caught up, is one that the theorems about rounds start from:
   the conditions are sorted because no run ever stored others.
   */
  lemma CaughtUp(w0: World, actions: seq<Action>)
    requires Initial(w0)
    ensures var w := Restarted(Exec(w0, actions));
      && Fresh(w.store) && ValidGitLab(w.gitlab)
      && (Server(w.store).Some? ==> if Server(w.store).value.deleting then DeletedFresh(w, Server(w.store).value) else LiveFresh(w))
  {
    hide Reading, Separate;
    var w := Exec(w0, actions);
    InitialStored(w0);
    ExecStored(w0, actions);
    RestartStored(w);
    InitialSeparate(w0);
    ExecSeparate(w0, actions);
    SeparateIsValid(w);
    FreshAfterRestart(w);
    if Server(Restarted(w).store).Some? { SortedServer(Restarted(w)); }
  }

  lemma InitialSeparate(w: World)
    requires Initial(w)
    ensures Separate(w, {})
  {
  }

  lemma SeparateIsValid(w: World)
    requires Separate(w, {})
    ensures ValidGitLab(w.gitlab)
  {
  }

  lemma FreshAfterRestart(w: World)
    requires Stored(w)
    ensures Fresh(Restarted(w).store)
  {
    assert Server(w.store) == w.store.log[|w.store.log| - 1];
  }

  lemma SortedServer(w: World)
    requires Stored(w) && Server(w.store).Some?
    ensures Sorted(Server(w.store).value.status.conditions)
  {
    assert Server(w.store) == w.store.log[|w.store.log| - 1];
  }

  // ---------- An edited project URL ----------

  /** What the user does: point the source at another project, and delete it. */
  function EditAndDelete(spec: Spec, version: nat): seq<Event> {
    [EditSpec(spec)] + ([DeleteSource] + ([Deliver(version)] + []))
  }

  lemma EditedAndDeleted(w: World, s: Source, spec: Spec) returns (t: Source)
    requires LiveFresh(w) && Server(w.store) == Some(s) && s.finalizers != []
    ensures var w' := EnvSteps(w, EditAndDelete(spec, |w.store.log| + 1));
      && DeletedFresh(w', t) && w' == w.(store := w'.store) && |w'.store.log| == |w.store.log| + 2
    ensures t == s.(spec := spec, deleting := true, rv := |w.store.log| + 1)
  {
    t := s.(spec := spec, deleting := true, rv := |w.store.log| + 1);
    var w1 := EnvStep(w, EditSpec(spec));
    assert w1.store.log == w.store.log + [Some(s.(spec := spec, rv := |w.store.log|))];
    var w2 := EnvStep(w1, DeleteSource);
    assert w2.store.log == w1.store.log + [Some(t)];
    var w3 := EnvStep(w2, Deliver(|w.store.log| + 1));
    ThreeEvents(w, EditSpec(spec), DeleteSource, Deliver(|w.store.log| + 1));
  }

  lemma ThreeEvents(w: World, a: Event, b: Event, c: Event)
    ensures EnvSteps(w, [a] + ([b] + ([c] + []))) == EnvStep(EnvStep(EnvStep(w, a), b), c)
  {
    hide EnvStep;
    EnvCons(w, a, [b] + ([c] + []));
    EnvCons(EnvStep(w, a), b, [c] + []);
    EnvCons(EnvStep(EnvStep(w, a), b), c, []);
  }

  /** Every call of the final run is answered, and the watch delivers the first write before the second. */
  predicate Answered(o: Oracle, spec: Spec, version: nat) {
    && WritesWork(o) && Deliver(version) in o.gaps.update
    && spec.accessToken.Some? && o.accessToken.Found? && !o.listHooksFails && o.deleteHook.Done? && AddressOf(spec.projectURL).Ok?
  }

  /** The final run of a deleted source with a registered hook. */
  lemma FinalRun(w: World, s: Source, o: Oracle, h: Hook)
    requires DeletedFresh(w, s) && Answered(o, s.spec, |w.store.log|) && F.OURS in s.finalizers
    requires ValidGitLab(w.gitlab) && h in w.gitlab.hooks && IsInt64(h.id) && KeyOf(s) == Itoa(h.id)
    ensures var r := RunOnce(w, o);
      && r.1.Success? && !ServerHasOurs(r.0) && r.0 == w.(store := r.0.store, gitlab := r.0.gitlab)
      && (Server(r.0.store).Some? ==> KeyOf(Server(r.0.store).value) == "")
      && (h.id in LiveIds(r.0.gitlab) <==> AddressOf(s.spec.projectURL) != Ok(h.address))
  {
    hide Finalize, FinalizePanics, WriteBack, RunOnce, F.Remove;
    var b := Finalize(w, s, o);
    FinalizeResult(w, s, o);
    F.AddRemoveMembers(s.finalizers);
    HookRemovedIff(w, s, o, h);
    RunOfDeleted(w, s, o);
    AtoiItoa(h.id);
    var entry := DeletedWrites(b.world, s, b.source, b.result, o);
  }

  /**
   A hook that the server records, and that our finalizer protects, leaks without any error exactly
   when the project URL is edited, before the deletion, to address another project.
   */
  lemma EditedUrlLeaksIff(w: World, s: Source, spec: Spec, o: Oracle, h: Hook)
    requires LiveFresh(w) && Server(w.store) == Some(s) && F.OURS in s.finalizers && KeyOf(s) == Itoa(h.id)
    requires ValidGitLab(w.gitlab) && h in w.gitlab.hooks && IsInt64(h.id) && h.id in w.ledger.created
    requires Answered(o, spec, |w.store.log| + 2)
    ensures var w1 := EnvSteps(w, EditAndDelete(spec, |w.store.log| + 1));
      var r := Reconcile(w1, o);
      && r.1.Success? && r.0.ledger == w.ledger && !ServerHasOurs(r.0)
      && (h.id in Unrecorded(r.0) <==> AddressOf(spec.projectURL) != Ok(h.address))
  {
    hide RunOnce, EnvSteps, EditAndDelete, Answered, AddressOf;
    var t := EditedAndDeleted(w, s, spec);
    FinalRun(EnvSteps(w, EditAndDelete(spec, |w.store.log| + 1)), t, o, h);
  }

  /** The run that registers the hook, with the watch delivering its first write before the second: both land. */
  lemma RegisteringLands(w: World, s: Source, o: Oracle) returns (h: Hook, t: Source)
    requires Poised(w, s, o) && Calm(o) && LiveFresh(w) && Server(w.store) == Some(s) && F.OURS !in s.finalizers
    requires Deliver(|w.store.log|) in o.gaps.update
    ensures h.id == o.hookId && Ok(h.address) == AddressOf(s.spec.projectURL) && ValidGitLab(WithHook(w, s, o, h).gitlab)
    ensures var r, w1 := Reconcile(w, o), WithHook(w, s, o, h);
      && r.1.Success? && r.0 == w1.(store := r.0.store)
      && LiveFresh(r.0.(store := Latest(r.0.store))) && Server(Latest(r.0.store)) == Some(t)
    ensures t == s.(rv := t.rv, status := t.status, finalizers := F.Add(s.finalizers)) && KeyOf(t) == Itoa(o.hookId)
  {
    hide RunOnce, Poised, F.Add, Body;
    AddsOurs(s.finalizers);
    var src;
    h, src := PoisedRun(w, s, o);
    var w1 := WithHook(w, s, o, h);
    t := BothLand(w1, s, src, o);
  }

  lemma AddsOurs(fs: seq<string>)
    ensures F.OURS !in fs ==> F.Add(fs) != fs
  {
    F.WriteNeeded(fs);
  }

  lemma BothLand(w: World, s: Source, src: Source, o: Oracle) returns (t: Source)
    requires Calm(o) && Fresh(w.store) && w.store.cache == Some(s) && !s.deleting && Sorted(s.status.conditions)
    requires src == s.(status := s.status.(webhookIDKey := KeyOf(src)), finalizers := src.finalizers)
    requires src.status != s.status && src.finalizers != s.finalizers && Deliver(|w.store.log|) in o.gaps.update
    ensures var r := WriteBack(w, s, src, Success, o);
      && r.1.Success? && r.0 == w.(store := r.0.store)
      && LiveFresh(r.0.(store := Latest(r.0.store))) && Server(Latest(r.0.store)) == Some(t)
    ensures t == src.(rv := t.rv)
  {
    var t1 := StatusWrite(w, s, src, o);
    var w1 := WriteStatus(w, s, src, o).0;
    DeliveredIff(w1, o.gaps.update);
    var w2 := EnvSteps(w1, o.gaps.update);
    var finalizers;
    t, finalizers := DeliveredWrite(w, w1, w2, s, t1, src, o);
    AheadLatest(w.store, Update(w2, src, o).0.store, t);
  }

  /** From the registration to the final run. */
  function EditTail(id: int, newSpec: Spec, n: nat): seq<Action> {
    [Run(PlainOracle(id, Done, Done, [Deliver(3)]))] + ([Environment(Deliver(n))] + ([Environment(EditSpec(newSpec))]
      + ([Environment(DeleteSource)] + ([Environment(Deliver(n + 2))] + ([Run(PlainOracle(0, Done, Done, [Deliver(n + 3)]))] + [])))))
  }

  lemma EditTailSteps(w: World, id: int, newSpec: Spec, n: nat)
    ensures var w1 := EnvStep(Reconcile(w, PlainOracle(id, Done, Done, [Deliver(3)])).0, Deliver(n));
      Exec(w, EditTail(id, newSpec, n))
        == Reconcile(EnvSteps(w1, EditAndDelete(newSpec, n + 2)), PlainOracle(0, Done, Done, [Deliver(n + 3)])).0
    ensures forall a :: a in EditTail(id, newSpec, n) && a.Run? ==> NoCreation(a.oracle.gaps.update)
  {
    hide EnvStep, Reconcile;
    var o1, o2 := PlainOracle(id, Done, Done, [Deliver(3)]), PlainOracle(0, Done, Done, [Deliver(n + 3)]);
    var d: seq<Action> := [Run(o2)] + [];
    var c := [Environment(Deliver(n + 2))] + d;
    var b := [Environment(DeleteSource)] + c;
    var a := [Environment(EditSpec(newSpec))] + b;
    var w0 := Reconcile(w, o1).0;
    var w1 := EnvStep(w0, Deliver(n));
    var w2 := EnvStep(w1, EditSpec(newSpec));
    var w3 := EnvStep(w2, DeleteSource);
    ExecCons(w, Run(o1), [Environment(Deliver(n))] + a);
    ExecCons(w0, Environment(Deliver(n)), a);
    ExecCons(w1, Environment(EditSpec(newSpec)), b);
    ExecCons(w2, Environment(DeleteSource), c);
    ExecCons(w3, Environment(Deliver(n + 2)), d);
    ExecCons(EnvStep(w3, Deliver(n + 2)), Run(o2), []);
    ThreeEvents(w1, EditSpec(newSpec), DeleteSource, Deliver(n + 2));
  }

  /** After the registration: a live source that records its hook and has the finalizer. */
  ghost predicate Hooked(w: World, t: Source, h: Hook, spec: Spec) {
    && LiveFresh(w) && Server(w.store) == Some(t) && F.OURS in t.finalizers && KeyOf(t) == Itoa(h.id)
    && ValidGitLab(w.gitlab) && h in w.gitlab.hooks && IsInt64(h.id) && h.id in w.ledger.created && Ok(h.address) == AddressOf(spec.projectURL)
    && w.ledger.errors == 0 && w.ledger.lostReplies == 0
  }

  lemma RegisteredFrom(w0: World, w: World, s: Source, uid: nat, spec: Spec, id: int) returns (n: nat, h: Hook, t: Source)
    requires Initial(w0) && Creatable(w0, uid, spec) && Prepared(w0, w, s, uid, spec) && IsInt64(id) && id !in w0.gitlab.issued
    ensures var w1 := EnvStep(Reconcile(w, PlainOracle(id, Done, Done, [Deliver(3)])).0, Deliver(n));
      Hooked(w1, t, h, spec) && h.id == id && |w1.store.log| == n + 1
  {
    hide Poised, Reconcile, AddressOf, SettledFor;
    var o1 := PlainOracle(id, Done, Done, [Deliver(3)]);
    PreparedPoised(w0, w, s, uid, spec, o1, id, Done, Done, [Deliver(3)]);
    h, t := RegisteringLands(w, s, o1);
    var r := Reconcile(w, o1).0;
    n := |r.store.log| - 1;
    LatestIsDelivery(r);
    HookIsLive(w, s, o1, h, EnvStep(r, Deliver(n)));
    AddsItself(s.finalizers);
  }

  lemma EditedFrom(w: World, t: Source, h: Hook, spec: Spec, newSpec: Spec, n: nat)
    requires Hooked(w, t, h, spec) && |w.store.log| == n + 1 && newSpec.accessToken.Some?
    requires AddressOf(newSpec.projectURL).Ok? && AddressOf(newSpec.projectURL) != AddressOf(spec.projectURL)
    ensures var w' := Reconcile(EnvSteps(w, EditAndDelete(newSpec, n + 2)), PlainOracle(0, Done, Done, [Deliver(n + 3)])).0;
      w'.ledger.errors == 0 && w'.ledger.lostReplies == 0 && h.id in Unrecorded(w')
  {
    hide EnvSteps, AddressOf, EditAndDelete, Reconcile, LiveFresh;
    var o2 := PlainOracle(0, Done, Done, [Deliver(n + 3)]);
    assert Answered(o2, newSpec, n + 3);
    EditedUrlLeaksIff(w, t, newSpec, o2, h);
  }

  lemma AddsItself(fs: seq<string>)
    ensures F.OURS in F.Add(fs)
  {
    F.AddRemoveMembers(fs);
  }

  lemma HookIsLive(w: World, s: Source, o: Oracle, h: Hook, w1: World)
    requires w1.gitlab == WithHook(w, s, o, h).gitlab && w1.ledger == WithHook(w, s, o, h).ledger
    ensures h in w1.gitlab.hooks && h.id in w1.ledger.created
  {
    assert w1.gitlab.hooks[|w.gitlab.hooks|] == h;
  }

  /**
   Editing the project URL before the deletion leaks the hook, and nobody is told: from every initial
   world there is a history without any failed run, and without a source made anew, that ends like this.
   */
  lemma EditedUrlLeaks(w0: World, uid: nat, spec: Spec, newSpec: Spec, id: int) returns (actions: seq<Action>)
    requires Initial(w0) && Creatable(w0, uid, spec) && IsInt64(id) && id !in w0.gitlab.issued && newSpec.accessToken.Some?
    requires AddressOf(newSpec.projectURL).Ok? && AddressOf(newSpec.projectURL) != AddressOf(spec.projectURL)
    ensures forall a :: a in actions && a.Run? ==> NoCreation(a.oracle.gaps.update)
    ensures var w := Exec(w0, actions); w.ledger.errors == 0 && w.ledger.lostReplies == 0 && id in Unrecorded(w)
  {
    hide Reconcile, Preparation, EditTail, PlainOracle, Creatable, Initial, EnvSteps, EnvStep, Prepared, AddressOf, Hooked, Unrecorded;
    var w, s := Prepare(w0, uid, spec);
    PreparationSteps(w0, uid, spec);
    OrdinaryRuns(Preparation(w0, uid, spec), spec.projectURL);
    var n, h, t := RegisteredFrom(w0, w, s, uid, spec, id);
    EditedFrom(EnvStep(Reconcile(w, PlainOracle(id, Done, Done, [Deliver(3)])).0, Deliver(n)), t, h, spec, newSpec, n);
    actions := Preparation(w0, uid, spec) + EditTail(id, newSpec, n);
    ExecConcat(w0, Preparation(w0, uid, spec), EditTail(id, newSpec, n));
    EditTailSteps(w, id, newSpec, n);
  }

  lemma OrdinaryRuns(actions: seq<Action>, url: string)
    requires forall a :: a in actions ==> Ordinary(a, url)
    ensures forall a :: a in actions && a.Run? ==> NoCreation(a.oracle.gaps.update)
  {
  }
}
