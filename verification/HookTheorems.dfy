/** The main results about hooks, over every history of the environment, restarts and runs. */
module HookTheorems {
  import opened Outcomes
  import opened SetSizes
  import opened Sources
  import opened Protocol
  import opened Invariants
  import opened Accounting
  import opened HookRuns
  import opened WriteBacks
  import opened Bookkeeping
  import F = Finalizers

  /** The source is not created anew. */
  predicate NoCreation(es: seq<Event>) {
    forall i :: 0 <= i < |es| ==> !es[i].CreateSource?
  }

  /** The object went away between the versions `n` and `i`. */
  ghost predicate GoneBefore(log: seq<Option<Source>>, n: nat, i: int) {
    exists k :: n <= k < i && k < |log| && log[k].None?
  }

  /** On the way from `w` to `w'` the object was made anew, and the watch has delivered the new one. */
  ghost predicate DeliveredAnew(w: World, w': World) {
    w'.store.cache.Some? && GoneBefore(w'.store.log, |w.store.log|, w'.store.seen)
  }

  /** Between the two writes of the run the source is made anew and delivered. */
  ghost predicate Replaced(w: World, o: Oracle) {
    && !o.listerFails && w.store.cache.Some?
    && var b := Body(w, w.store.cache.value, o);
    var a := WriteStatus(b.world, w.store.cache.value, b.source, o);
    !b.result.Panicked? && a.1 && DeliveredAnew(a.0, EnvSteps(a.0, o.gaps.update))
  }

  /** The URL stays. */
  predicate UrlFixed(a: Action, url: string) {
    match a
    case Environment(e) => KeepsUrl(e, url)
    case Restart => true
    case Run(o) => GapsKeepUrl(o.gaps, url)
  }

  /** The source was replaced while the run held the ID of a hook that it had just registered. */
  ghost predicate Replacement(w: World, o: Oracle) {
    && Replaced(w, o) && KeyOf(w.store.cache.value) == ""
    && KeyOf(Body(w, w.store.cache.value, o).source) != ""
  }

  ghost predicate ActReplaces(w: World, a: Action) { a.Run? && Replacement(w, a.oracle) }

  /** The URL stays, and no run sees its source created between its two writes. */
  predicate Ordinary(a: Action, url: string) {
    UrlFixed(a, url) && (a.Run? ==> NoCreation(a.oracle.gaps.update))
  }

  // ---------- The objects that descend from the one a hook was recorded in ----------

  /** Version `i` has the ID `key`; if the object was made anew since version `n`, it has none, and lacks our finalizer. */
  ghost predicate Descends(log: seq<Option<Source>>, key: string, n: nat, i: nat)
    requires i < |log|
  {
    log[i].Some? ==>
      if GoneBefore(log, n, i) then KeyOf(log[i].value) == "" && F.OURS !in log[i].value.finalizers else KeyOf(log[i].value) == key
  }

  ghost predicate Lineage(w: World, key: string, n: nat) {
    && n <= |w.store.log|
    && (forall i :: w.store.seen < i < |w.store.log| ==> Descends(w.store.log, key, n, i))
    && (w.store.cache.Some? ==> KeyOf(w.store.cache.value) == if GoneBefore(w.store.log, n, w.store.seen) then "" else key)
    && w.store.log != [] && Descends(w.store.log, key, n, |w.store.log| - 1)
    && (Server(w.store).None? ==> n < |w.store.log|)
  }

  lemma GoneSame(log: seq<Option<Source>>, entry: Option<Source>, n: nat, i: int)
    requires i <= |log|
    ensures GoneBefore(log + [entry], n, i) <==> GoneBefore(log, n, i)
  {
    if GoneBefore(log, n, i) {
      var k :| n <= k < i && k < |log| && log[k].None?;
      assert (log + [entry])[k].None?;
    }
    if GoneBefore(log + [entry], n, i) {
      var k :| n <= k < i && k < |log + [entry]| && (log + [entry])[k].None?;
      assert log[k].None?;
    }
  }

  lemma LineageAppends(w: World, w': World, entry: Option<Source>, key: string, n: nat, url: string)
    requires StoreOK(w.store)
    requires Lineage(w, key, n) && NewVersion(w, entry, url) && w'.store == w.store.(log := w.store.log + [entry])
    ensures Lineage(w', key, n)
  {
    hide GoneBefore;
    var log, m := w.store.log, |w.store.log|;
    forall i | i == m - 1 || w.store.seen < i < m ensures i >= 0 && Descends(w'.store.log, key, n, i) {
      assert Descends(log, key, n, i);
      GoneSame(log, entry, n, i);
    }
    GoneSame(log, entry, n, w.store.seen);
    NewestDescends(w, entry, key, n, url);
  }

  lemma NewestDescends(w: World, entry: Option<Source>, key: string, n: nat, url: string)
    requires Lineage(w, key, n) && NewVersion(w, entry, url)
    ensures Descends(w.store.log + [entry], key, n, |w.store.log|)
  {
    var log, m := w.store.log, |w.store.log|;
    GoneSame(log, entry, n, m - 1);
    GoneSame(log, entry, n, m);
    assert Server(w.store) == log[m - 1];
    assert GoneBefore(log, n, m) <==> GoneBefore(log, n, m - 1) || (n <= m - 1 && log[m - 1].None?) by {
      if GoneBefore(log, n, m) {
        var k :| n <= k < m && k < |log| && log[k].None?;
        assert k == m - 1 || GoneBefore(log, n, m - 1);
      }
      if GoneBefore(log, n, m - 1) {
        var k :| n <= k < m - 1 && k < |log| && log[k].None?;
      }
    }
  }

  lemma LineageDelivers(w: World, w': World, v: nat, key: string, n: nat)
    requires Lineage(w, key, n) && w.store.seen < v < |w.store.log| && w'.store == w.store.(seen := v, cache := w.store.log[v])
    ensures Lineage(w', key, n)
  {
    assert Descends(w.store.log, key, n, v);
  }

  lemma LineageStep(w: World, e: Event, key: string, n: nat, url: string)
    requires Inv(w, url) && KeepsUrl(e, url) && Lineage(w, key, n)
    ensures Lineage(EnvStep(w, e), key, n)
  {
    hide StoreEvent, Lineage, NewVersion;
    var w' := EnvStep(w, e);
    StoreEventShape(w, e, url);
    if w'.store.log != w.store.log {
      var entry :| NewVersion(w, entry, url) && w'.store == w.store.(log := w.store.log + [entry]);
      LineageAppends(w, w', entry, key, n, url);
    } else if w'.store != w.store {
      LineageDelivers(w, w', e.version, key, n);
    } else {
      LineageSame(w, w', key, n);
    }
  }

  lemma LineageSame(w: World, w': World, key: string, n: nat)
    requires Lineage(w, key, n) && w'.store == w.store
    ensures Lineage(w', key, n)
  {
  }

  lemma {:induction false} LineageSteps(w: World, es: seq<Event>, key: string, n: nat, url: string)
    requires Inv(w, url) && AllKeepUrl(es, url) && Lineage(w, key, n)
    ensures Lineage(EnvSteps(w, es), key, n)
    decreases |es|
  {
    if es != [] {
      LineageStep(w, es[0], key, n, url);
      EnvStepInv(w, es[0], url);
      assert AllKeepUrl(es[1..], url);
      LineageSteps(EnvStep(w, es[0]), es[1..], key, n, url);
    }
  }

  lemma LineageStarts(w: World, key: string)
    requires OneKey(w, key) && Server(w.store).Some?
    ensures Lineage(w, key, |w.store.log|)
  {
  }

  /**
   Both calls of one run went wrong: the reply of the registration was lost, and the finalizer write left the
   cached object with a finalizer that the server lacks.
   */
  ghost predicate DoubleFault(w0: World, w': World) {
    w'.ledger.lostReplies > w0.ledger.lostReplies && Masked(w') && !Masked(w0)
  }

  /** What a run from `w0` may leave behind: `failed` says that it returned an error. */
  ghost predicate WithinDebt(w0: World, w': World, failed: bool, url: string) {
    && Inv(w', url)
    && w'.ledger.errors == w0.ledger.errors
    && Debt(w') <= Debt(w0) + One(failed) + One(DoubleFault(w0, w'))
  }

  // ---------- A run that registered no hook, or lost the reply ----------

  /** The working copy asks for finalizers as its body may leave them. */
  ghost predicate QuietCopy(original: Source, s: Source, result: Result) {
    if original.deleting
    then F.OURS !in s.finalizers && (KeyOf(s) != "" ==> result.Failure?)
    else KeyOf(s) == KeyOf(original) && (s.finalizers != original.finalizers ==> F.OURS in s.finalizers)
  }

  /** The reply of a registration has been lost since `w0`. */
  ghost predicate LostSince(w0: World, w: World) { w.ledger.lostReplies > w0.ledger.lostReplies }

  /** Nothing was owed since `w0` except by lost replies. */
  ghost predicate QuietSince(w0: World, w: World, original: Source, s: Source, url: string) {
    && InRun(w, original, KeyOf(s), KeyOf(s), url)
    && w0.ledger.errors == w.ledger.errors && w0.ledger.lostReplies <= w.ledger.lostReplies
    && Owed(w) <= Owed(w0) + One(LostSince(w0, w))
    && (MaskedBy(w, original) ==> Masked(w0))
  }

  lemma QuietEnv(w0: World, w: World, original: Source, s: Source, es: seq<Event>, url: string)
    requires QuietSince(w0, w, original, s, url) && AllKeepUrl(es, url)
    ensures QuietSince(w0, EnvSteps(w, es), original, s, url) && EnvSteps(w, es).ledger == w.ledger
  {
    hide Inv, InRun, OwedBut, ServerHasOurs, Agrees, Moves, Kept, ValidKey;
    EnvInRun(w, es, original, KeyOf(s), KeyOf(s), {}, url);
    MovesFacts(w, EnvSteps(w, es));
  }

  lemma QuietStop(w0: World, w: World, original: Source, s: Source, failed: bool, url: string)
    requires QuietSince(w0, w, original, s, url)
    requires failed || !original.deleting ==> failed || KeyOf(s) == KeyOf(original)
    requires LostSince(w0, w) ==> failed
    ensures WithinDebt(w0, w, failed, url)
  {
    hide Inv, OwedBut, Agrees;
  }

  lemma QuietCall(w0: World, w: World, original: Source, s: Source, result: Result, o: Oracle, url: string)
    requires QuietSince(w0, w, original, s, url) && QuietCopy(original, s, result) && GapsKeepUrl(o.gaps, url)
    requires w.store.cache.Some? && w.store.cache.value.finalizers != s.finalizers && (!original.deleting ==> F.OURS in s.finalizers)
    requires LostSince(w0, w) ==> result.Failure? && !original.deleting
    ensures var r := Update(w, s, o); WithinDebt(w0, r.0, !r.1 || result.Failure?, url)
  {
    hide Inv, InRun, OwedBut, OurLive, ServerHasOurs, Agrees, Moves, Kept, ValidKey, Update;
    UpdateCall(w, original, s, o, url);
  }

  lemma QuietFinalizers(w0: World, w: World, original: Source, s: Source, result: Result, o: Oracle, url: string)
    requires QuietSince(w0, w, original, s, url) && QuietCopy(original, s, result) && GapsKeepUrl(o.gaps, url)
    requires LostSince(w0, w) ==> result.Failure? && !original.deleting
    ensures var r := WriteFinalizers(w, original, s, o);
      WithinDebt(w0, r.0, !r.1 || result.Failure?, url)
  {
    hide QuietSince, WithinDebt, Inv;
    var w1 := EnvSteps(w, o.gaps.update);
    QuietEnv(w0, w, original, s, o.gaps.update, url);
    var r := WriteFinalizers(w, original, s, o);
    if original.finalizers != s.finalizers && w1.store.cache.Some? && w1.store.cache.value.finalizers != s.finalizers {
      QuietCall(w0, w1, original, s, result, o, url);
    } else {
      QuietStop(w0, w1, original, s, !r.1 || result.Failure?, url);
    }
  }

  lemma QuietBody(w0: World, original: Source, b: Step, o: Oracle, url: string)
    requires w0.store.cache == Some(original) && BodyPost(w0, original, b, {}, url) && !b.result.Panicked? && GapsKeepUrl(o.gaps, url)
    ensures QuietSince(w0, WriteStatus(b.world, original, b.source, o).0, original, b.source, url)
    ensures QuietCopy(original, b.source, b.result)
    ensures LostSince(w0, WriteStatus(b.world, original, b.source, o).0) ==> b.result.Failure? && !original.deleting
  {
    hide Inv, InRun, OwedBut, OurLive, ServerHasOurs, Agrees, Moves, Kept, ValidKey, WriteStatus;
    F.AddRemoveMembers(original.finalizers);
    assert InRun(b.world, original, KeyOf(b.source), KeyOf(original), url);
    WriteStatusQuiet(b.world, original, b.source, o, url);
  }

  lemma QuietRun(w0: World, original: Source, b: Step, o: Oracle, url: string)
    requires w0.store.cache == Some(original) && BodyPost(w0, original, b, {}, url) && !b.result.Panicked? && GapsKeepUrl(o.gaps, url)
    ensures var r := WriteBack(b.world, original, b.source, b.result, o);
      WithinDebt(w0, r.0, r.1.Failure?, url) && !r.1.Panicked?
  {
    hide Inv, BodyPost, QuietSince, QuietCopy, WithinDebt, WriteStatus, WriteFinalizers;
    QuietBody(w0, original, b, o, url);
    var a := WriteStatus(b.world, original, b.source, o);
    if a.1 {
      QuietFinalizers(w0, a.0, original, b.source, b.result, o, url);
    } else {
      QuietStop(w0, a.0, original, b.source, true, url);
    }
  }

  // ---------- A run that registered a hook ----------

  /** The world after the status was stored: the hook is recorded everywhere. */
  ghost predicate Recorded(w0: World, w: World, original: Source, s: Source, pending: set<int>, url: string) {
    && InRun(w, original, KeyOf(s), KeyOf(s), url) && OneKey(w, KeyOf(s)) && Server(w.store).Some?
    && Holding(w0, w, original, s, pending)
  }

  /** What the run holds, and owes since `w0`, once its hook is recorded. */
  ghost predicate Holding(w0: World, w: World, original: Source, s: Source, pending: set<int>) {
    && IdIs(KeyOf(s), pending)
    && w0.ledger.errors == w.ledger.errors && w0.ledger.lostReplies == w.ledger.lostReplies
    && Owed(w) <= Owed(w0) + 1
    && |OurLive(w) - pending| <= Owed(w0)
    && s.finalizers == F.Add(original.finalizers)
  }

  /** Our finalizer is on the server next to the recorded hook: nothing new is owed. */
  lemma FinalizedOwed(w0: World, w: World, pending: set<int>, key: string)
    requires ServerHasOurs(w) && KeyOf(Server(w.store).value) == key && IdIs(key, pending)
    requires |OurLive(w) - pending| <= Owed(w0)
    ensures Owed(w) <= Owed(w0)
  {
    assert Unrecorded(w) - {} == OurLive(w) - pending;
  }

  /** After the gap before the second write, unless the source was replaced in it. */
  ghost predicate Linked(w: World, key: string) {
    && (w.store.cache.Some? ==> KeyOf(w.store.cache.value) == key)
    && (ServerHasOurs(w) ==> KeyOf(Server(w.store).value) == key)
    && (w.store.cache.Some? && Server(w.store).Some? && w.store.seen == |w.store.log| - 1 ==> KeyOf(Server(w.store).value) == key)
  }

  lemma LineageLinks(w: World, key: string, n: nat)
    requires Lineage(w, key, n) && !(w.store.cache.Some? && GoneBefore(w.store.log, n, w.store.seen))
    ensures Linked(w, key)
  {
    assert Server(w.store) == w.store.log[|w.store.log| - 1];
  }

  ghost predicate Held(w0: World, w: World, original: Source, s: Source, pending: set<int>, url: string) {
    InRun(w, original, KeyOf(s), KeyOf(s), url) && Linked(w, KeyOf(s)) && Holding(w0, w, original, s, pending)
  }

  lemma RecordedEnv(w0: World, w: World, original: Source, s: Source, pending: set<int>, es: seq<Event>, url: string)
    requires Recorded(w0, w, original, s, pending, url) && AllKeepUrl(es, url) && !DeliveredAnew(w, EnvSteps(w, es))
    ensures Held(w0, EnvSteps(w, es), original, s, pending, url)
    ensures MaskedBy(EnvSteps(w, es), original) ==> MaskedBy(w, original)
    ensures ServerHasOurs(w) ==> ServerHasOurs(EnvSteps(w, es))
  {
    hide Inv, OwedBut, Linked, Lineage, OneKey, GoneBefore, InRun, OurLive, ServerHasOurs, Moves;
    var w1 := EnvSteps(w, es);
    RecordedInv(w, original, KeyOf(s), KeyOf(s), url);
    LineageStarts(w, KeyOf(s));
    LineageSteps(w, es, KeyOf(s), |w.store.log|, url);
    LineageLinks(w1, KeyOf(s), |w.store.log|);
    EnvInRun(w, es, original, KeyOf(s), KeyOf(s), {}, url);
    MovesFacts(w, w1);
    SubsetSize(OurLive(w1) - pending, OurLive(w) - pending);
  }

  /**
   The end of a run with a recorded hook: the finalizer is there, or the run failed, or the debt was booked
   before.
   */
  lemma RecordedEnd(w0: World, w: World, w': World, s: Source, pending: set<int>, failed: bool, url: string)
    requires Inv(w', url) && w'.ledger == w.ledger && OurLive(w') <= OurLive(w) && Owed(w') <= Owed(w)
    requires w0.ledger.errors == w.ledger.errors && w0.ledger.lostReplies == w.ledger.lostReplies
    requires Owed(w) <= Owed(w0) + 1 && |OurLive(w) - pending| <= Owed(w0) && IdIs(KeyOf(s), pending)
    requires !Masked(w')
    requires failed || Masked(w0) || (ServerHasOurs(w') && KeyOf(Server(w'.store).value) == KeyOf(s))
    ensures WithinDebt(w0, w', failed, url)
  {
    hide Inv, OwedBut, OurLive, Masked, IdIs;
    if ServerHasOurs(w') && KeyOf(Server(w'.store).value) == KeyOf(s) {
      SubsetSize(OurLive(w') - pending, OurLive(w) - pending);
      FinalizedOwed(w0, w', pending, KeyOf(s));
    }
  }

  lemma RecordedNotMasked(w: World, key: string, ids: set<int>)
    requires Linked(w, key) && IdIs(key, ids)
    ensures !Masked(w)
    ensures ServerHasOurs(w) ==> KeyOf(Server(w.store).value) == key
    ensures w.store.cache.Some? ==> KeyOf(w.store.cache.value) != ""
  {
  }

  lemma RecordedUpdate(w0: World, w: World, original: Source, s: Source, pending: set<int>, o: Oracle, url: string)
    requires Held(w0, w, original, s, pending, url) && GapsKeepUrl(o.gaps, url) && F.OURS in s.finalizers
    requires Masked(w0) || F.OURS !in original.finalizers || ServerHasOurs(w)
    ensures var r := Update(w, s, o); WithinDebt(w0, r.0, !r.1, url)
  {
    var r := Update(w, s, o);
    RecordedNotMasked(w, KeyOf(s), pending);
    if w.store.cache.None? || w.store.cache.value.finalizers == s.finalizers {
      RecordedEnd(w0, w, w, s, pending, !r.1, url);
    } else {
      hide Inv, InRun, OwedBut, OurLive, Agrees, Update, WithinDebt;
      UpdateCall(w, original, s, o, url);
      RecordedEnd(w0, w, r.0, s, pending, !r.1, url);
    }
  }

  lemma RecordedSkip(w0: World, w: World, original: Source, s: Source, pending: set<int>, url: string)
    requires Held(w0, w, original, s, pending, url)
    requires Masked(w0) || ServerHasOurs(w)
    ensures WithinDebt(w0, w, false, url)
  {
    RecordedNotMasked(w, KeyOf(s), pending);
    RecordedEnd(w0, w, w, s, pending, false, url);
  }

  lemma PendingFinalizers(w0: World, w: World, original: Source, s: Source, pending: set<int>, o: Oracle, url: string)
    requires Recorded(w0, w, original, s, pending, url) && GapsKeepUrl(o.gaps, url) && !DeliveredAnew(w, EnvSteps(w, o.gaps.update))
    requires !original.deleting && KeyOf(original) == ""
    requires MaskedBy(w, original) ==> Masked(w0)
    ensures var r := WriteFinalizers(w, original, s, o); WithinDebt(w0, r.0, !r.1, url)
  {
    F.AddRemoveMembers(original.finalizers);
    hide Inv, InRun, OwedBut, OurLive, WithinDebt, DeliveredAnew, OneKey, Update, Linked;
    var w1 := EnvSteps(w, o.gaps.update);
    RecordedEnv(w0, w, original, s, pending, o.gaps.update, url);
    if original.finalizers == s.finalizers {
      RecordedSkip(w0, w1, original, s, pending, url);
    } else {
      RecordedUpdate(w0, w1, original, s, pending, o, url);
    }
  }

  lemma PendingBody(w0: World, original: Source, b: Step, pending: set<int>, o: Oracle, url: string)
    requires w0.store.cache == Some(original) && BodyPost(w0, original, b, pending, url) && pending != {}
    requires GapsKeepUrl(o.gaps, url)
    ensures var a := WriteStatus(b.world, original, b.source, o);
      && (MaskedBy(a.0, original) ==> Masked(w0))
      && (if a.1 then Recorded(w0, a.0, original, b.source, pending, url) else WithinDebt(w0, a.0, true, url))
    ensures !original.deleting && KeyOf(original) == "" && b.result.Success?
  {
    hide Inv, InRun, OwedBut, OurLive, ServerHasOurs, Agrees, Moves, Kept, ValidKey, WriteStatus, NoKey, OneKey;
    var s := b.source;
    WriteStatusPending(b.world, original, s, pending, o, url);
    var a := WriteStatus(b.world, original, s, o);
    if a.1 {
      WriteStatusShrinks(b.world, original, s, o, url);
      PendingServer(b.world, original, s, o, url);
      PendingRecorded(w0, b.world, a.0, original, s, pending, url);
    }
  }

  lemma PendingRun(w0: World, original: Source, b: Step, pending: set<int>, o: Oracle, url: string)
    requires w0.store.cache == Some(original) && BodyPost(w0, original, b, pending, url) && pending != {}
    requires GapsKeepUrl(o.gaps, url)
    requires var a := WriteStatus(b.world, original, b.source, o); a.1 ==> !DeliveredAnew(a.0, EnvSteps(a.0, o.gaps.update))
    ensures var r := WriteBack(b.world, original, b.source, b.result, o);
      WithinDebt(w0, r.0, r.1.Failure?, url) && !r.1.Panicked?
  {
    hide Inv, BodyPost, Recorded, WithinDebt, WriteStatus, WriteFinalizers, MaskedBy, DeliveredAnew;
    PendingBody(w0, original, b, pending, o, url);
    var a := WriteStatus(b.world, original, b.source, o);
    if a.1 {
      PendingFinalizers(w0, a.0, original, b.source, pending, o, url);
    }
  }

  /** Writing the status registers no hook. */
  lemma WriteStatusShrinks(w: World, original: Source, s: Source, o: Oracle, url: string)
    requires InRun(w, original, KeyOf(s), KeyOf(original), url) && GapsKeepUrl(o.gaps, url)
    ensures OurLive(WriteStatus(w, original, s, o).0) <= OurLive(w)
  {
    var w1 := EnvSteps(w, o.gaps.status);
    EnvInRun(w, o.gaps.status, original, KeyOf(s), KeyOf(original), {}, url);
    if original.status != s.status && w1.store.cache.Some? && w1.store.cache.value.status != s.status {
      var p1 := InPlaceRun(w1, original, s, KeyOf(original), {}, url);
      EnvInRun(InPlace(w1, p1), o.gaps.statusCall, original, KeyOf(s), KeyOf(s), {}, url);
    }
  }

  /** A new ID gets to the server by a call, not because it was there. */
  lemma PendingServer(w: World, original: Source, s: Source, o: Oracle, url: string)
    requires InRun(w, original, KeyOf(s), KeyOf(original), url) && GapsKeepUrl(o.gaps, url)
    requires NoKey(w, KeyOf(s)) && KeyOf(s) != "" && KeyOf(original) != KeyOf(s) && WriteStatus(w, original, s, o).1
    ensures Server(WriteStatus(w, original, s, o).0.store).Some?
  {
    hide Inv, EnvSteps;
    RecordedInv(w, original, KeyOf(s), KeyOf(original), url);
    EnvStepsNoKey(w, o.gaps.status, KeyOf(s), url);
  }

  lemma RecordedInv(w: World, original: Source, key: string, cachedKey: string, url: string)
    requires InRun(w, original, key, cachedKey, url)
    ensures Inv(w, url)
  {
  }

  lemma PendingRecorded(w0: World, w: World, w1: World, original: Source, s: Source, pending: set<int>, url: string)
    requires InRun(w, original, KeyOf(s), KeyOf(original), url)
    requires InRun(w1, original, KeyOf(s), KeyOf(s), url) && OneKey(w1, KeyOf(s)) && IdIs(KeyOf(s), pending) && Server(w1.store).Some?
    requires w0.ledger.errors == w1.ledger.errors && w0.ledger.lostReplies == w1.ledger.lostReplies && w1.ledger == w.ledger
    requires OwedBut(w, pending) <= Owed(w0) && Owed(w1) <= OwedBut(w, pending) + 1 && OurLive(w1) <= OurLive(w)
    requires s.finalizers == F.Add(original.finalizers)
    ensures Recorded(w0, w1, original, s, pending, url)
  {
    AgreementRecords(w, KeyOf(s), url);
    assert OurLive(w1) - pending <= Unrecorded(w) - pending;
    SubsetSize(OurLive(w1) - pending, Unrecorded(w) - pending);
  }

  // ---------- One action ----------

  lemma RestartedInv(w: World, url: string)
    requires Inv(w, url)
    ensures Inv(Restarted(w), url) && Debt(Restarted(w)) <= Owed(w) && Restarted(w).ledger == w.ledger
  {
    var n := |w.store.log| - 1;
    if w.store.seen < n {
      Delivered(w, Restarted(w), n);
    } else {
      SameServerEntry(w, Restarted(w), n);
    }
    RestartedOwed(w);
  }

  lemma RestartedOwed(w: World)
    requires w.store.log != []
    ensures Debt(Restarted(w)) <= Owed(w)
  {
    RestartedServer(w);
    hide Restarted, OwedBut;
    OwedIfIdKept(w, Restarted(w), {});
  }

  lemma RestartedServer(w: World)
    requires w.store.log != []
    ensures var w' := Restarted(w);
      && OurLive(w') == OurLive(w) && RecordedId(w') == RecordedId(w)
      && (ServerHasOurs(w') <==> ServerHasOurs(w)) && !Masked(w')
  {
    assert Server(Restarted(w).store) == Server(w.store);
  }

  lemma SameServerEntry(w: World, w': World, n: nat)
    requires StoreOK(w.store) && KeysOK(w) && w.store.seen == n == |w.store.log| - 1
    requires w' == w.(store := w.store.(seen := n, cache := w.store.log[n]))
    ensures KeysOK(w')
  {
    forall j | n <= j < |w'.store.log| && w'.store.log[j].Some?
      ensures KeyAgrees(w', KeyOf(w'.store.log[n].value), KeyOf(w'.store.log[j].value))
    {
    }
  }

  /** A cached object without ID does not claim our finalizer in a run that holds an ID. */
  lemma NoFalseClaim(w: World, original: Source, key: string, url: string)
    requires InRun(w, original, key, key, url) && key != ""
    ensures !Masked(w)
  {
    hide Inv;
  }

  lemma CallBound(w: World, w': World, ok: bool, s: Source, url: string)
    requires CallPost(w, w', ok, s, url) && F.OURS in s.finalizers
    ensures Inv(w', url) && w'.ledger == w.ledger && Debt(w') <= Owed(w) + One(!ok)
  {
    hide Inv, OwedBut, OurLive;
  }

  /** A run whose source was replaced leaves its hook to nobody: one unit more. */
  lemma ReplacedFinalizers(w0: World, w: World, original: Source, s: Source, pending: set<int>, o: Oracle, url: string)
    requires Recorded(w0, w, original, s, pending, url) && GapsKeepUrl(o.gaps, url)
    ensures var r := WriteFinalizers(w, original, s, o);
      && Inv(r.0, url) && r.0.ledger.errors == w0.ledger.errors && Debt(r.0) <= Debt(w0) + One(!r.1) + 1
  {
    F.AddRemoveMembers(original.finalizers);
    hide Inv, InRun, OwedBut, OurLive, ServerHasOurs, Agrees, Moves, Update, OneKey, ValidKey, Masked, CallPost;
    var w1 := EnvSteps(w, o.gaps.update);
    EnvInRun(w, o.gaps.update, original, KeyOf(s), KeyOf(s), {}, url);
    MovesFacts(w, w1);
    NoFalseClaim(w1, original, KeyOf(s), url);
    RecordedInv(w1, original, KeyOf(s), KeyOf(s), url);
    if original.finalizers != s.finalizers {
      if w1.store.cache.Some? && w1.store.cache.value.finalizers != s.finalizers {
        UpdateCall(w1, original, s, o, url);
        CallBound(w1, Update(w1, s, o).0, Update(w1, s, o).1, s, url);
      } else {
        UpdateSkips(w1, s, o);
      }
    }
  }

  lemma UpdateSkips(w: World, s: Source, o: Oracle)
    requires w.store.cache.None? || w.store.cache.value.finalizers == s.finalizers
    ensures Update(w, s, o) == (w, w.store.cache.Some?)
  {
  }

  lemma ReplacedRun(w0: World, original: Source, b: Step, pending: set<int>, o: Oracle, url: string)
    requires w0.store.cache == Some(original) && BodyPost(w0, original, b, pending, url) && pending != {}
    requires GapsKeepUrl(o.gaps, url) && WriteStatus(b.world, original, b.source, o).1
    ensures var r := WriteBack(b.world, original, b.source, b.result, o);
      Inv(r.0, url) && r.0.ledger.errors == w0.ledger.errors && Debt(r.0) <= Debt(w0) + One(r.1.Failure?) + 1
    ensures KeyOf(original) == "" && KeyOf(b.source) != ""
  {
    hide Inv, BodyPost, WriteStatus, WriteFinalizers, MaskedBy, OwedBut, Masked, InRun, OneKey;
    PendingBody(w0, original, b, pending, o, url);
    ReplacedFinalizers(w0, WriteStatus(b.world, original, b.source, o).0, original, b.source, pending, o, url);
  }

  /** One run adds at most its own error to the debt, and one more only for a double fault or a replacement. */
  lemma RunDebt(w: World, o: Oracle, url: string)
    requires Inv(w, url) && GapsKeepUrl(o.gaps, url)
    ensures var r := RunOnce(w, o);
      && Inv(r.0, url) && r.0.ledger.errors == w.ledger.errors
      && Debt(r.0) <= Debt(w) + One(r.1.Failure?) + One(DoubleFault(w, r.0)) + One(Replacement(w, o))
  {
    hide Inv, OwedBut, OurLive, Agrees, Masked, Body, WriteBack, WriteStatus, BodyPost, Restarted, DeliveredAnew;
    if !o.listerFails && w.store.cache.Some? {
      var original := w.store.cache.value;
      var b := Body(w, original, o);
      var pending := BodyFacts(w, original, o, url);
      var a := WriteStatus(b.world, original, b.source, o);
      if b.result.Panicked? {
        PanicDebt(w, original, b, pending, url);
      } else if pending == {} {
        QuietRun(w, original, b, o, url);
      } else if a.1 && DeliveredAnew(a.0, EnvSteps(a.0, o.gaps.update)) {
        ReplacedRun(w, original, b, pending, o, url);
      } else {
        PendingRun(w, original, b, pending, o, url);
      }
    }
  }

  lemma PanicDebt(w: World, original: Source, b: Step, pending: set<int>, url: string)
    requires BodyPost(w, original, b, pending, url) && b.result.Panicked?
    ensures WithinDebt(w, Restarted(b.world), false, url)
  {
    hide Inv, OwedBut, OurLive, Agrees, Masked, Restarted;
    RestartedInv(b.world, url);
  }

  lemma ChargeInv(w: World, r: Result, url: string)
    requires Inv(w, url)
    ensures Inv(Charge(w, r), url)
  {
    hide Agrees, KeyAgrees, ValidKey;
    SameStore(w, Charge(w, r));
  }

  lemma ChargeFacts(w: World, r: Result, url: string)
    requires Inv(w, url)
    ensures Inv(Charge(w, r), url) && Debt(Charge(w, r)) == Debt(w) && (Masked(Charge(w, r)) <==> Masked(w))
  {
    hide Inv;
    ChargeInv(w, r, url);
    assert Unrecorded(Charge(w, r)) == Unrecorded(w);
  }

  lemma EventDebt(w: World, e: Event, url: string)
    requires Inv(w, url) && KeepsUrl(e, url)
    ensures Inv(EnvStep(w, e), url) && Debt(EnvStep(w, e)) <= Debt(w) && EnvStep(w, e).ledger == w.ledger
  {
    hide Inv, OwedBut, StoreEvent;
    EnvStepInv(w, e, url);
    EnvStepOwed(w, e, {}, url);
    MovesFacts(w, EnvStep(w, e));
  }

  /** The debt after one action, against the errors it has charged. */
  lemma ActDebt(w: World, a: Action, url: string)
    requires Inv(w, url) && UrlFixed(a, url)
    ensures var w' := Act(w, a);
      && Inv(w', url)
      && Debt(w') + w.ledger.errors <= Debt(w) + w'.ledger.errors + One(DoubleFault(w, w')) + One(ActReplaces(w, a))
  {
    hide Inv, OwedBut, Masked, RunOnce, EnvStep, Restarted, Replacement;
    match a
    case Environment(e) => EventDebt(w, e, url);
    case Restart => RestartedInv(w, url);
    case Run(o) =>
      RunDebt(w, o, url);
      ChargeFacts(RunOnce(w, o).0, RunOnce(w, o).1, url);
  }

  lemma InitialInv(w: World, url: string)
    requires Initial(w)
    ensures Inv(w, url) && Debt(w) == 0
  {
    assert Unrecorded(w) == {};
  }

  /** The runs of a history in which both calls went wrong. */
  ghost function DoubleFaults(w: World, actions: seq<Action>): nat
    decreases |actions|
  {
    if actions == [] then 0 else One(DoubleFault(w, Act(w, actions[0]))) + DoubleFaults(Act(w, actions[0]), actions[1..])
  }

  /** The runs of a history whose source was replaced while they held a new hook. */
  ghost function Replacements(w: World, actions: seq<Action>): nat
    decreases |actions|
  {
    if actions == [] then 0 else One(ActReplaces(w, actions[0])) + Replacements(Act(w, actions[0]), actions[1..])
  }

  lemma {:induction false} ExecDebt(w: World, actions: seq<Action>, url: string)
    requires Inv(w, url) && forall a :: a in actions ==> UrlFixed(a, url)
    ensures var w' := Exec(w, actions);
      && Inv(w', url)
      && Debt(w') + w.ledger.errors <= Debt(w) + w'.ledger.errors + DoubleFaults(w, actions) + Replacements(w, actions)
    decreases |actions|
  {
    hide Inv, OwedBut, Act, DoubleFault, ActReplaces, Masked;
    if actions != [] {
      ActDebt(w, actions[0], url);
      ExecDebt(Act(w, actions[0]), actions[1..], url);
    }
  }

  lemma LostReplyBooked(w: World, a: Action)
    ensures w.ledger.errors + One(DoubleFault(w, Act(w, a))) <= Act(w, a).ledger.errors
  {
    hide RunOnce, Masked;
    if a.Run? { RunBooks(w, a.oracle); }
  }

  /** Double faults are failed runs. */
  lemma {:induction false} DoubleFaultsFail(w: World, actions: seq<Action>)
    ensures w.ledger.errors + DoubleFaults(w, actions) <= Exec(w, actions).ledger.errors
    decreases |actions|
  {
    hide Act, DoubleFault;
    if actions != [] {
      LostReplyBooked(w, actions[0]);
      DoubleFaultsFail(Act(w, actions[0]), actions[1..]);
    }
  }

  /**
   Hook accounting: after every history with a fixed URL, the hooks that this controller registered, that are
   still live, and that the server does not record are at most the calls of `Reconcile` that returned an error,
   plus those of them in which both the registration and the finalizer write went wrong, plus the runs that
   registered a hook and whose source was made anew and delivered between their writes.
   */
  lemma HookAccounting(w: World, actions: seq<Action>, url: string)
    requires Initial(w) && forall a :: a in actions ==> UrlFixed(a, url)
    ensures var w' := Exec(w, actions);
      |Unrecorded(w')| <= w'.ledger.errors + DoubleFaults(w, actions) + Replacements(w, actions)
  {
    hide Inv, Initial, DoubleFaults, Replacements, Exec, Unrecorded, Masked, ServerHasOurs;
    InitialInv(w, url);
    ExecDebt(w, actions, url);
    var w' := Exec(w, actions);
    assert Unrecorded(w') - {} == Unrecorded(w');
  }
}
