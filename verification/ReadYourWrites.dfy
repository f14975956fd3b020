/**
 Read-your-writes over every history: whatever the cache holds, or can still be given, knows the hook ID
 that the server stores, so no run registers a second hook. Then the bounds on live hooks that follow from
 the accounting, which do need a fixed project URL.
 */
module ReadYourWrites {
  import opened SetSizes
  import opened Protocol
  import opened Invariants
  import opened Accounting
  import opened HookTheorems
  import opened Bookkeeping
  import opened CleanHistories
  import opened StoredStatuses

  // ---------- Read-your-writes ----------

  /**
   After every history: while the server stores an ID, the cached object and every version the watch can
   still deliver exist, and each carries that ID, unless it is a deleted object whose ID was cleared.
   */
  lemma ReadsItsWrites(w0: World, actions: seq<Action>)
    requires Initial(w0)
    ensures var w := Exec(w0, actions);
      HasKey(Server(w.store)) ==>
        && Reads(w.store.cache, Server(w.store).value)
        && (forall i :: w.store.seen < i < |w.store.log| ==> Reads(w.store.log[i], Server(w.store).value))
  {
    hide AllOwn, Sticky, Reads;
    InitialStored(w0);
    ExecStored(w0, actions);
    var st := Exec(w0, actions).store;
    if HasKey(Server(st)) {
      assert Reads(Entry(st, st.seen), st.log[|st.log| - 1].value);
      forall i | st.seen < i < |st.log| ensures Reads(st.log[i], st.log[|st.log| - 1].value) {
        assert Reads(Entry(st, i), st.log[|st.log| - 1].value);
      }
    }
  }

  /** A run registers a hook only when the server stores no ID. */
  lemma RegistersOnlyWithoutHook(w: World, o: Oracle)
    requires Stored(w)
    requires RunOnce(w, o).0.ledger.created != w.ledger.created
    ensures !HasKey(Server(w.store))
  {
    hide RunOnce, Stored;
    RunBooks(w, o);
    CacheReads(w);
  }

  lemma CacheReads(w: World)
    requires Stored(w)
    ensures HasKey(Server(w.store)) ==> Reads(w.store.cache, Server(w.store).value)
  {
    hide AllOwn, Sticky, Reads;
    var st := w.store;
    if HasKey(Server(st)) {
      assert Reads(Entry(st, st.seen), st.log[|st.log| - 1].value);
    }
  }

  /** After every history, the next run registers no hook while the server stores an ID: no second `Create` for a source. */
  lemma NoSecondHook(w0: World, actions: seq<Action>, o: Oracle)
    requires Initial(w0)
    ensures var w := Exec(w0, actions);
      HasKey(Server(w.store)) ==> Reconcile(w, o).0.ledger.created == w.ledger.created
  {
    hide RunOnce, Stored;
    InitialStored(w0);
    ExecStored(w0, actions);
    var w := Exec(w0, actions);
    if RunOnce(w, o).0.ledger.created != w.ledger.created {
      RegistersOnlyWithoutHook(w, o);
    }
  }

  /** So a hook that was removed in GitLab is not registered again: whatever happens after the removal, no run does it while an ID is stored. */
  lemma RemovedHookIsNotReplaced(w0: World, actions: seq<Action>, id: int, more: seq<Action>, o: Oracle)
    requires Initial(w0)
    ensures var w := Exec(EnvStep(Exec(w0, actions), RemoveHook(id)), more);
      HasKey(Server(w.store)) ==> Reconcile(w, o).0.ledger.created == w.ledger.created
  {
    hide RunOnce, Stored, EnvStep;
    InitialStored(w0);
    ExecStored(w0, actions);
    StepStored(Exec(w0, actions), RemoveHook(id));
    ExecStored(EnvStep(Exec(w0, actions), RemoveHook(id)), more);
    var w := Exec(EnvStep(Exec(w0, actions), RemoveHook(id)), more);
    if RunOnce(w, o).0.ledger.created != w.ledger.created {
      RegistersOnlyWithoutHook(w, o);
    }
  }

  // ---------- What suffices for the accounting ----------

  /** Nothing follows the removal of the object since version `n`. */
  ghost predicate GoneForGood(st: Store, n: nat) {
    StoreOK(st) && forall k :: n <= k < |st.log| && st.log[k].None? ==> k == |st.log| - 1
  }

  lemma {:induction false} StaysGone(w: World, es: seq<Event>, n: nat)
    requires GoneForGood(w.store, n) && NoCreation(es)
    ensures GoneForGood(EnvSteps(w, es).store, n)
    decreases |es|
  {
    if es != [] {
      StepGrows(w, es[0]);
      assert NoCreation(es[1..]);
      assert Server(w.store) == w.store.log[|w.store.log| - 1];
      StaysGone(EnvStep(w, es[0]), es[1..], n);
    }
  }

  lemma NotAnew(w: World, es: seq<Event>)
    requires StoreOK(w.store) && NoCreation(es)
    ensures !DeliveredAnew(w, EnvSteps(w, es))
  {
    StaysGone(w, es, |w.store.log|);
  }

  lemma NotReplaced(w: World, o: Oracle)
    requires Stored(w) && NoCreation(o.gaps.update)
    ensures !Replaced(w, o)
  {
    hide Stored, Own, Reader, MayHold, Body, WriteStatus, DeliveredAnew;
    if w.store.cache.Some? {
      var original := w.store.cache.value;
      BodyWorked(w, original, o);
      var b := Body(w, original, o);
      if !b.result.Panicked? {
        WriteStatusStored(b.world, original, b.source, o);
        var w1 := WriteStatus(b.world, original, b.source, o).0;
        StoredOK(w1);
        NotAnew(w1, o.gaps.update);
      }
    }
  }

  /** A history whose runs see no creation between their writes has no replacements. */
  lemma {:induction false} NothingReplaced(w: World, actions: seq<Action>)
    requires Stored(w) && forall a :: a in actions && a.Run? ==> NoCreation(a.oracle.gaps.update)
    ensures Replacements(w, actions) == 0
    decreases |actions|
  {
    hide Stored, Act, Replaced;
    if actions != [] {
      var a := actions[0];
      if a.Run? { NotReplaced(w, a.oracle); }
      ActStored(w, a);
      NothingReplaced(Act(w, a), actions[1..]);
    }
  }

  // ---------- Bounds on live hooks ----------

  /**
   All live hooks of the controller, over every history with a fixed URL: the recorded one, at most two for
   every failed run, and one for every replacement.
   */
  lemma LiveHooksBound(w0: World, actions: seq<Action>, url: string)
    requires Initial(w0) && forall a :: a in actions ==> UrlFixed(a, url)
    ensures var w := Exec(w0, actions); |OurLive(w)| <= 1 + 2 * w.ledger.errors + Replacements(w0, actions)
  {
    var w := Exec(w0, actions);
    HookAccounting(w0, actions, url);
    DoubleFaultsFail(w0, actions);
    SubsetSize(OurLive(w), Unrecorded(w) + RecordedId(w));
    RecordedAtMostOne(w);
    assert |Unrecorded(w) + RecordedId(w)| <= |Unrecorded(w)| + |RecordedId(w)|;
  }

  // ---------- Histories without errors ----------

  /**
   If no run so far returned an error, and none had its source replaced while it held a new hook, the live
   hooks of the controller are among the one ID the server records, a recorded live hook is protected by the
   finalizer, and none is left when the object is gone.
   */
  lemma ErrorFree(w0: World, actions: seq<Action>, url: string)
    requires Initial(w0) && forall a :: a in actions ==> UrlFixed(a, url)
    ensures var w := Exec(w0, actions);
      w.ledger.errors == 0 && Replacements(w0, actions) == 0 ==>
        && OurLive(w) <= RecordedId(w)
        && (RecordedId(w) * OurLive(w) != {} ==> ServerHasOurs(w))
        && (Server(w.store).None? ==> OurLive(w) == {})
  {
    InitialInv(w0, url);
    ExecDebt(w0, actions, url);
    DoubleFaultsFail(w0, actions);
    var w := Exec(w0, actions);
    assert Unrecorded(w) - {} == Unrecorded(w);
  }
}
