/** The two write-backs of a run, and the bound on what a whole run adds to the hook debt. */
module WriteBacks {
  import opened Outcomes
  import opened SetSizes
  import opened Numerals
  import opened Statuses
  import opened Sources
  import opened Hooks
  import opened Protocol
  import opened Invariants
  import opened Accounting
  import opened HookRuns
  import F = Finalizers

  // ---------- Writing into the cache ----------

  function InPlace(w: World, p1: Source): World { w.(store := w.store.(cache := Some(p1))) }

  lemma InPlaceAgrees(w: World, p1: Source)
    ensures forall key, i: nat :: Agrees(w, key, i) ==> Agrees(InPlace(w, p1), key, i)
  {
    var w' := InPlace(w, p1);
    forall key, i: nat | Agrees(w, key, i) ensures Agrees(w', key, i) {
      SameLogKeepsAgreement(w, w', key, i);
    }
  }

  lemma InPlaceKeys(w: World, p1: Source)
    requires StoreOK(w.store) && KeysOK(w) && ValidKey(w, KeyOf(p1)) && Agrees(w, KeyOf(p1), w.store.seen)
    ensures KeysOK(InPlace(w, p1))
  {
    InPlaceAgrees(w, p1);
    hide Agrees, StoreOK;
    var w' := InPlace(w, p1);
    forall i | w.store.seen < i < |w.store.log| ensures EntryAgrees(w', w'.store.log[i], i) {
      assert EntryAgrees(w, w.store.log[i], i);
    }
  }

  lemma InPlaceInv(w: World, p1: Source, url: string)
    requires Inv(w, url) && w.store.cache.Some?
    requires p1 == w.store.cache.value.(status := p1.status, finalizers := p1.finalizers)
    requires ValidKey(w, KeyOf(p1)) && Agrees(w, KeyOf(p1), w.store.seen)
    ensures Inv(InPlace(w, p1), url)
    ensures forall key, i: nat :: Agrees(w, key, i) ==> Agrees(InPlace(w, p1), key, i)
  {
    hide Agrees, KeysOK;
    InPlaceAgrees(w, p1);
    InPlaceKeys(w, p1);
  }

  lemma InPlaceOwed(w: World, p1: Source, pending: set<int>)
    ensures OwedBut(InPlace(w, p1), pending) == OwedBut(w, pending)
    ensures OurLive(InPlace(w, p1)) == OurLive(w)
  {
    assert Unrecorded(InPlace(w, p1)) == Unrecorded(w);
  }

  /** When the server still has the version the write is based on, the environment has left the store alone. */
  lemma StillAttached(w: World, w': World, p1: Source)
    requires StoreOK(w.store) && StoreOK(w'.store) && Moves(w, w')
    requires w.store.cache == Some(p1) && Server(w'.store).Some? && p1.rv == Server(w'.store).value.rv
    ensures w'.store == w.store && w.store.seen == |w.store.log| - 1
  {
    assert p1.rv == w.store.seen;
    assert Server(w'.store).value.rv == |w'.store.log| - 1;
    assert w.store.log == w'.store.log[..|w.store.log|];
  }

  // ---------- The status ----------

  /** The current version is recorded with status `st`. */
  function StatusStored(w: World, st: Status): World
    requires Server(w.store).Some?
  {
    w.(store := Commit(w.store, Server(w.store).value.(status := st)))
  }

  lemma StatusStoredInv(w: World, p1: Source, url: string)
    requires Inv(w, url) && w.store.cache == Some(p1) && w.store.seen == |w.store.log| - 1 && Server(w.store).Some?
    requires ValidKey(w, KeyOf(p1)) && Agrees(w, KeyOf(p1), w.store.seen)
    ensures var w' := StatusStored(w, p1.status);
      Inv(w', url) && Agrees(w', KeyOf(p1), w.store.seen) && (ServerHasOurs(w') <==> ServerHasOurs(w))
  {
    var w', n := StatusStored(w, p1.status), |w.store.log|;
    forall j | w.store.seen <= j < |w'.store.log| && w'.store.log[j].Some?
      ensures KeyAgrees(w', KeyOf(p1), KeyOf(w'.store.log[j].value))
    {
      if j < n { assert KeyAgrees(w, KeyOf(p1), KeyOf(w.store.log[j].value)); }
    }
    assert Agrees(w', KeyOf(p1), n);
    assert Server(w.store) == w.store.log[n - 1];
  }

  /** The server records what it recorded before, as far as it is live, and perhaps one owed hook more. */
  lemma RecordingOwed(w: World, w': World)
    requires OurLive(w') == OurLive(w) && RecordedId(w) * OurLive(w) <= RecordedId(w')
    requires ServerHasOurs(w') <==> ServerHasOurs(w)
    ensures Owed(w') <= Owed(w)
  {
    var u, u' := Unrecorded(w) - {}, Unrecorded(w') - {};
    assert u' <= u;
    SubsetSize(u', u);
    if Exposed(w') && !Exposed(w) {
      var id :| id in RecordedId(w') * OurLive(w');
      assert id in u && id !in u';
      SubsetSize(u', u - {id});
    }
  }

  lemma RecordingPending(w: World, w': World, pending: set<int>)
    requires OurLive(w') == OurLive(w) && RecordedId(w) * OurLive(w) <= RecordedId(w') == pending
    ensures Owed(w') <= OwedBut(w, pending) + One(!ServerHasOurs(w'))
  {
    assert Unrecorded(w') - {} <= Unrecorded(w) - pending;
    SubsetSize(Unrecorded(w') - {}, Unrecorded(w) - pending);
  }

  lemma AgreementRecords(w: World, key: string, url: string)
    requires Inv(w, url) && Agrees(w, key, w.store.seen)
    ensures RecordedId(w) * OurLive(w) <= if Atoi(key).Some? then {Atoi(key).value} else {}
  {
    var n := |w.store.log|;
    if Server(w.store).Some? {
      assert KeyAgrees(w, key, KeyOf(w.store.log[n - 1].value));
    }
  }

  /** Every object in the cache or still to come has the ID `key`, and so has the server. */
  ghost predicate OneKey(w: World, key: string) {
    && (w.store.cache.Some? ==> KeyOf(w.store.cache.value) == key)
    && (forall i :: w.store.seen < i < |w.store.log| && w.store.log[i].Some? ==> KeyOf(w.store.log[i].value) == key)
    && (Server(w.store).Some? ==> KeyOf(Server(w.store).value) == key)
  }

  /** What `updateStatus` leaves behind in any case. */
  ghost predicate StatusPost(w: World, w': World, original: Source, s: Source, url: string) {
    && InRun(w', original, KeyOf(s), KeyOf(s), url)
    && w'.ledger == w.ledger
    && (ServerHasOurs(w) ==> ServerHasOurs(w'))
  }

  lemma KeptInPlace(w: World, original: Source, p1: Source, cachedKey: string, s: Source)
    requires w.store.cache.Some? && Kept(w, original, cachedKey)
    requires p1 == w.store.cache.value.(status := s.status)
    ensures Kept(InPlace(w, p1), original, KeyOf(s))
  {
  }

  lemma InRunParts(w: World, original: Source, s: Source, cachedKey: string, url: string)
    requires InRun(w, original, KeyOf(s), cachedKey, url)
    ensures Inv(w, url) && Agrees(w, KeyOf(s), w.store.seen) && ValidKey(w, KeyOf(s)) && Kept(w, original, cachedKey)
  {
  }

  lemma InPlaceRun(w: World, original: Source, s: Source, cachedKey: string, pending: set<int>, url: string) returns (p1: Source)
    requires InRun(w, original, KeyOf(s), cachedKey, url) && w.store.cache.Some?
    ensures p1 == w.store.cache.value.(status := s.status)
    ensures InRun(InPlace(w, p1), original, KeyOf(s), KeyOf(s), url) && StoreOK(InPlace(w, p1).store)
    ensures OwedBut(InPlace(w, p1), pending) == OwedBut(w, pending) && OwedBut(InPlace(w, p1), {}) == OwedBut(w, {})
    ensures ServerHasOurs(InPlace(w, p1)) <==> ServerHasOurs(w)
  {
    hide KeysOK, FinalizersOK, HooksOK, OwedBut, Agrees, Kept;
    InRunParts(w, original, s, cachedKey, url);
    p1 := w.store.cache.value.(status := s.status);
    InPlaceInv(w, p1, url);
    InPlaceOwed(w, p1, pending);
    InPlaceOwed(w, p1, {});
    KeptInPlace(w, original, p1, cachedKey, s);
  }

  /** The state in which the API call of `updateStatus` arrives. */
  lemma BeforeStatusCall(w: World, original: Source, s: Source, cachedKey: string, pending: set<int>, o: Oracle, url: string)
    returns (p1: Source, w1: World)
    requires InRun(w, original, KeyOf(s), cachedKey, url) && GapsKeepUrl(o.gaps, url)
    requires w.store.cache.Some? && w.store.cache.value.status != s.status
    ensures p1 == w.store.cache.value.(status := s.status) && w1 == EnvSteps(InPlace(w, p1), o.gaps.statusCall)
    ensures StatusPost(w, w1, original, s, url) && Moves(InPlace(w, p1), w1) && StoreOK(InPlace(w, p1).store)
    ensures OwedBut(w1, pending) <= OwedBut(w, pending) && OwedBut(w1, {}) <= OwedBut(w, {})
  {
    hide Inv, InRun, OwedBut, Agrees, Moves, Kept, ServerHasOurs, StoreOK;
    p1 := InPlaceRun(w, original, s, cachedKey, pending, url);
    var w0 := InPlace(w, p1);
    w1 := EnvSteps(w0, o.gaps.statusCall);
    EnvInRun(w0, o.gaps.statusCall, original, KeyOf(s), KeyOf(s), pending, url);
    EnvInRun(w0, o.gaps.statusCall, original, KeyOf(s), KeyOf(s), {}, url);
    MovesFacts(w0, w1);
  }

  lemma MovesFacts(w: World, w': World)
    requires Moves(w, w')
    ensures w'.ledger == w.ledger && (ServerHasOurs(w) ==> ServerHasOurs(w'))
    ensures w'.store.cache == w.store.cache || w'.store.cache.None? || F.OURS !in w'.store.cache.value.finalizers || ServerHasOurs(w')
  {
  }

  lemma StatusCommitted(w1: World, original: Source, p1: Source, s: Source, pending: set<int>, url: string)
    requires InRun(w1, original, KeyOf(s), KeyOf(s), url)
    requires w1.store.cache == Some(p1) && p1.status == s.status && w1.store.seen == |w1.store.log| - 1 && Server(w1.store).Some?
    ensures var w' := StatusStored(w1, s.status);
      && StatusPost(w1, w', original, s, url) && OneKey(w', KeyOf(s))
      && Owed(w') <= Owed(w1)
      && (IdIs(KeyOf(s), pending) ==> Owed(w') <= OwedBut(w1, pending) + One(!ServerHasOurs(w')))
  {
    var w' := StatusStored(w1, s.status);
    StatusStoredInv(w1, p1, url);
    StatusStoredOwed(w1, s, pending, url);
    assert ValidKey(w', KeyOf(s)) && Kept(w', original, KeyOf(s));
  }

  lemma StatusStoredOwed(w1: World, s: Source, pending: set<int>, url: string)
    requires Inv(w1, url) && Agrees(w1, KeyOf(s), w1.store.seen) && Server(w1.store).Some?
    ensures var w' := StatusStored(w1, s.status);
      Owed(w') <= Owed(w1) && (IdIs(KeyOf(s), pending) ==> Owed(w') <= OwedBut(w1, pending) + One(!ServerHasOurs(w')))
  {
    var w' := StatusStored(w1, s.status);
    AgreementRecords(w1, KeyOf(s), url);
    assert RecordedId(w') == if Atoi(KeyOf(s)).Some? then {Atoi(KeyOf(s)).value} else {};
    hide Inv, Agrees, OwedBut;
    RecordingOwed(w1, w');
    if IdIs(KeyOf(s), pending) { RecordingPending(w1, w', pending); }
  }

  lemma StatusAlreadyStored(w1: World, s: Source, pending: set<int>)
    requires Server(w1.store).Some? && Server(w1.store).value.status == s.status && IdIs(KeyOf(s), pending)
    ensures Owed(w1) <= OwedBut(w1, pending) + One(!ServerHasOurs(w1))
  {
    RecordingPending(w1, w1, pending);
  }

  /** `updateStatus`, for a working copy whose ID the cache can account for. */
  lemma UpdateStatusPost(w: World, original: Source, s: Source, cachedKey: string, pending: set<int>, o: Oracle, url: string)
    requires InRun(w, original, KeyOf(s), cachedKey, url) && GapsKeepUrl(o.gaps, url)
    requires w.store.cache.Some? && w.store.cache.value.status != s.status
    ensures var r := UpdateStatus(w, s, o);
      && StatusPost(w, r.0, original, s, url)
      && Owed(r.0) <= Owed(w)
      && (IdIs(KeyOf(s), pending) && r.1 ==> OneKey(r.0, KeyOf(s)) && Owed(r.0) <= OwedBut(w, pending) + One(!ServerHasOurs(r.0)))
      && (IdIs(KeyOf(s), pending) ==> Owed(r.0) <= OwedBut(w, pending) + 1)
  {
    var p1, w1 := BeforeStatusCall(w, original, s, cachedKey, pending, o, url);
    var r := ApiUpdateStatus(w1.store, p1, o.updateStatus);
    PendingSplits(w1, pending);
    if Server(w1.store).Some? && !o.updateStatus.Refused? && p1.rv == Server(w1.store).value.rv {
      StillAttached(InPlace(w, p1), w1, p1);
      if Server(w1.store).value.status == s.status {
        assert UpdateStatus(w, s, o).0 == w1;
        if IdIs(KeyOf(s), pending) { StatusAlreadyStored(w1, s, pending); }
      } else {
        assert UpdateStatus(w, s, o).0 == StatusStored(w1, s.status);
        StatusCommitted(w1, original, p1, s, pending, url);
      }
    } else {
      assert UpdateStatus(w, s, o) == (w1, false);
    }
  }

  lemma PendingSplits(w: World, pending: set<int>)
    ensures |pending| <= 1 ==> Owed(w) <= OwedBut(w, pending) + 1
  {
    var u := Unrecorded(w);
    assert u - {} == u;
    SubsetSize(u, (u - pending) + pending);
    assert |(u - pending) + pending| <= |u - pending| + |pending|;
  }

  // ---------- The whole of WriteStatus ----------

  /** A run that holds no unrecorded hook. */
  lemma WriteStatusQuiet(w: World, original: Source, s: Source, o: Oracle, url: string)
    requires InRun(w, original, KeyOf(s), KeyOf(original), url) && GapsKeepUrl(o.gaps, url)
    requires KeyOf(s) == KeyOf(original) || original.deleting
    ensures var r := WriteStatus(w, original, s, o);
      && InRun(r.0, original, KeyOf(s), KeyOf(s), url) && r.0.ledger == w.ledger
      && Owed(r.0) <= Owed(w) && (MaskedBy(r.0, original) ==> MaskedBy(w, original))
  {
    var w1 := EnvSteps(w, o.gaps.status);
    EnvInRun(w, o.gaps.status, original, KeyOf(s), KeyOf(original), {}, url);
    MovesFacts(w, w1);
    assert InRun(w1, original, KeyOf(s), KeyOf(s), url);
    if original.status != s.status && w1.store.cache.Some? && w1.store.cache.value.status != s.status {
      hide Inv, InRun, OwedBut, Moves, IdIs, OneKey;
      UpdateStatusPost(w1, original, s, KeyOf(original), {}, o, url);
    }
  }

  /** A run that has just registered the hook `pending`. */
  lemma WriteStatusPending(w: World, original: Source, s: Source, pending: set<int>, o: Oracle, url: string)
    requires InRun(w, original, KeyOf(s), KeyOf(original), url) && GapsKeepUrl(o.gaps, url)
    requires NoKey(w, KeyOf(s)) && IdIs(KeyOf(s), pending) && KeyOf(original) != KeyOf(s)
    ensures var r := WriteStatus(w, original, s, o);
      && r.0.ledger == w.ledger && Inv(r.0, url) && (MaskedBy(r.0, original) ==> MaskedBy(w, original))
      && Owed(r.0) <= OwedBut(w, pending) + 1
      && (if r.1
          then InRun(r.0, original, KeyOf(s), KeyOf(s), url) && OneKey(r.0, KeyOf(s))
               && Owed(r.0) <= OwedBut(w, pending) + One(!ServerHasOurs(r.0))
          else !Masked(r.0))
  {
    var w1 := EnvSteps(w, o.gaps.status);
    EnvInRun(w, o.gaps.status, original, KeyOf(s), KeyOf(original), pending, url);
    EnvStepsNoKey(w, o.gaps.status, KeyOf(s), url);
    MovesFacts(w, w1);
    PendingSplits(w1, pending);
    if w1.store.cache.Some? {
      UpdateStatusPost(w1, original, s, KeyOf(original), pending, o, url);
    }
  }

  // ---------- The finalizers ----------

  lemma InPlaceFinalizers(w: World, s: Source, url: string) returns (p1: Source)
    requires Inv(w, url) && w.store.cache.Some?
    ensures p1 == w.store.cache.value.(finalizers := s.finalizers)
    ensures Inv(InPlace(w, p1), url) && StoreOK(InPlace(w, p1).store)
    ensures forall key, i: nat :: Agrees(w, key, i) ==> Agrees(InPlace(w, p1), key, i)
    ensures OwedBut(InPlace(w, p1), {}) == OwedBut(w, {}) && OurLive(InPlace(w, p1)) == OurLive(w)
    ensures ServerHasOurs(InPlace(w, p1)) <==> ServerHasOurs(w)
  {
    hide KeysOK, FinalizersOK, HooksOK, OwedBut, Agrees;
    CachedKeyAgrees(w);
    p1 := w.store.cache.value.(finalizers := s.finalizers);
    InPlaceInv(w, p1, url);
    InPlaceOwed(w, p1, {});
  }

  lemma CachedKeyAgrees(w: World)
    ensures KeysOK(w) && w.store.cache.Some? ==>
      ValidKey(w, KeyOf(w.store.cache.value)) && Agrees(w, KeyOf(w.store.cache.value), w.store.seen)
  {
    hide Agrees;
  }

  /** The state in which the API call of `update` arrives. */
  lemma BeforeUpdateCall(w: World, s: Source, key: string, o: Oracle, url: string) returns (p1: Source, w1: World)
    requires Inv(w, url) && GapsKeepUrl(o.gaps, url) && w.store.cache.Some? && Agrees(w, key, w.store.seen)
    ensures p1 == w.store.cache.value.(finalizers := s.finalizers) && w1 == EnvSteps(InPlace(w, p1), o.gaps.updateCall)
    ensures Inv(w1, url) && Moves(InPlace(w, p1), w1) && StoreOK(InPlace(w, p1).store) && Agrees(w1, key, w1.store.seen)
    ensures w1.ledger == w.ledger && Owed(w1) <= Owed(w) && OurLive(w1) <= OurLive(w) && (ServerHasOurs(w) ==> ServerHasOurs(w1))
    ensures w1.store.cache == Some(p1) || w1.store.cache.None? || F.OURS !in w1.store.cache.value.finalizers || ServerHasOurs(w1)
  {
    hide Inv, OwedBut, OurLive, ServerHasOurs, StoreOK, Agrees;
    p1 := InPlaceFinalizers(w, s, url);
    var w0 := InPlace(w, p1);
    w1 := EnvSteps(w0, o.gaps.updateCall);
    EnvStepsInv(w0, o.gaps.updateCall, url);
    EnvStepsOwed(w0, o.gaps.updateCall, {}, url);
    MovesFacts(w0, w1);
    assert Agrees(w0, key, w0.store.seen);
  }

  /** The server accepts the finalizers of a cached object that is based on its current version. */
  lemma FinalizersStored(w: World, w': World, p1: Source, entry: Option<Source>, url: string)
    requires Inv(w, url) && w.store.cache == Some(p1) && w.store.seen == |w.store.log| - 1 && Server(w.store).Some?
    requires var cur := Server(w.store).value;
      (entry == None && p1.finalizers == []) || entry == Some(cur.(finalizers := p1.finalizers, spec := p1.spec, rv := |w.store.log|))
    requires w' == w.(store := w.store.(log := w.store.log + [entry]))
    ensures Inv(w', url) && OurLive(w') == OurLive(w)
    ensures ServerHasOurs(w') <==> F.OURS in p1.finalizers
    ensures RecordedId(w') == if entry.Some? then RecordedId(w) else {}
    ensures Server(w'.store).Some? ==> KeyOf(Server(w'.store).value) == KeyOf(Server(w.store).value)
  {
    var cur := Server(w.store).value;
    assert w.store.log[w.store.seen] == Some(cur);
    AppendKeepsKeys(w, w', entry);
  }

  /** Adding our finalizer never makes a hook owed. */
  lemma AddingOwed(w: World, w': World)
    requires OurLive(w') == OurLive(w) && RecordedId(w') == RecordedId(w) && ServerHasOurs(w')
    ensures Owed(w') <= Owed(w)
  {
  }

  /** Removing it leaves at most the recorded hook behind, and nothing when that hook is gone. */
  lemma RemovingOwed(w: World, w': World)
    requires OurLive(w') == OurLive(w) && (RecordedId(w') == RecordedId(w) || RecordedId(w') == {})
    ensures Owed(w') <= Owed(w) + One(RecordedId(w) * OurLive(w) != {})
  {
    var r := RecordedId(w) * OurLive(w);
    var u, u' := Unrecorded(w) - {}, Unrecorded(w') - {};
    if RecordedId(w') == RecordedId(w) {
      assert u' == u;
    } else {
      assert u' <= u + r;
      SubsetSize(u', u + r);
      RecordedAtMostOne(w);
      SubsetSize(r, RecordedId(w));
      assert |u + r| <= |u| + |r|;
    }
  }

  /** What `update` leaves behind when it makes its API call. */
  ghost predicate CallPost(w: World, w': World, ok: bool, s: Source, url: string) {
    && Inv(w', url) && w'.ledger == w.ledger && OurLive(w') <= OurLive(w)
    && (if F.OURS in s.finalizers
        then (
          && Owed(w') <= Owed(w)
          && (ServerHasOurs(w) || ok ==> ServerHasOurs(w'))
          && (ok ==> Server(w.store).Some? && KeyOf(Server(w'.store).value) == KeyOf(Server(w.store).value)
                     && w.store.seen == |w.store.log| - 1))
        else Owed(w') <= Owed(w) + One(KeyOf(s) != ""))
    && (F.OURS !in s.finalizers || (w.store.cache.Some? && KeyOf(w.store.cache.value) != "") ==> !Masked(w'))
  }

  /** `w1` is where the call of `update` arrives in a run that holds `s` and started the call in `w`. */
  ghost predicate AtCall(w: World, w1: World, p1: Source, s: Source, url: string) {
    && Inv(w1, url) && Agrees(w1, KeyOf(s), w1.store.seen)
    && w1.ledger == w.ledger && Owed(w1) <= Owed(w) && OurLive(w1) <= OurLive(w) && (ServerHasOurs(w) ==> ServerHasOurs(w1))
    && w.store.cache.Some? && p1 == w.store.cache.value.(finalizers := s.finalizers)
  }

  /** The call finds the version it is based on. */
  ghost predicate Attached(w: World, w1: World, p1: Source) {
    && w1.store.cache == Some(p1) && w1.store.seen == |w1.store.log| - 1 && Server(w1.store).Some?
    && Server(w1.store) == Server(w.store) && w.store.seen == |w.store.log| - 1
  }

  /** The server stored the finalizers of the in-place object. */
  ghost predicate Stores(w1: World, w': World, p1: Source, entry: Option<Source>) {
    && Server(w1.store).Some?
    && w' == w1.(store := w1.store.(log := w1.store.log + [entry]))
    && var cur := Server(w1.store).value;
       (entry == None && p1.finalizers == []) || entry == Some(cur.(finalizers := p1.finalizers, spec := p1.spec, rv := |w1.store.log|))
  }

  lemma StoredAdding(w: World, w1: World, w': World, p1: Source, s: Source, entry: Option<Source>, ok: bool, url: string)
    requires AtCall(w, w1, p1, s, url) && Attached(w, w1, p1) && Stores(w1, w', p1, entry) && F.OURS in s.finalizers
    ensures CallPost(w, w', ok, s, url)
  {
    hide Inv, Agrees, OurLive, RecordedId, OwedBut;
    FinalizersStored(w1, w', p1, entry, url);
    AddingOwed(w1, w');
  }

  lemma RecordedGone(w: World, key: string, url: string)
    requires Inv(w, url) && Agrees(w, key, w.store.seen)
    ensures key == "" ==> RecordedId(w) * OurLive(w) == {}
  {
    AgreementRecords(w, key, url);
  }

  lemma StoredRemoving(w: World, w1: World, w': World, p1: Source, s: Source, entry: Option<Source>, ok: bool, url: string)
    requires AtCall(w, w1, p1, s, url) && Attached(w, w1, p1) && Stores(w1, w', p1, entry) && F.OURS !in s.finalizers
    ensures CallPost(w, w', ok, s, url)
  {
    hide Inv, Agrees, OurLive, RecordedId, OwedBut;
    FinalizersStored(w1, w', p1, entry, url);
    RecordedGone(w1, KeyOf(s), url);
    RemovingOwed(w1, w');
  }

  lemma NotStored(w: World, w1: World, p1: Source, s: Source, ok: bool, url: string)
    requires AtCall(w, w1, p1, s, url)
    requires w1.store.cache == Some(p1) || w1.store.cache.None? || F.OURS !in w1.store.cache.value.finalizers || ServerHasOurs(w1)
    requires ok ==> Attached(w, w1, p1) && Server(w1.store).value.finalizers == s.finalizers
    ensures CallPost(w, w1, ok, s, url)
  {
    hide Inv, Agrees, OurLive, RecordedId, OwedBut;
  }

  lemma ApiUpdateShape(w1: World, p1: Source, reply: Reply) returns (entry: Option<Source>)
    ensures var r, w' := ApiUpdate(w1.store, p1, reply), w1.(store := ApiUpdate(w1.store, p1, reply).0);
      && (r.1 || w' != w1 ==> Server(w1.store).Some? && p1.rv == Server(w1.store).value.rv)
      && (w' == w1 && r.1 ==> Server(w1.store).value.finalizers == p1.finalizers)
      && (w' != w1 ==> Stores(w1, w', p1, entry))
  {
    var st := ApiUpdate(w1.store, p1, reply).0;
    entry := if |st.log| > |w1.store.log| then st.log[|w1.store.log|] else None;
  }

  lemma AttachedHere(w: World, w1: World, p1: Source)
    requires StoreOK(InPlace(w, p1).store) && StoreOK(w1.store) && Moves(InPlace(w, p1), w1)
    requires Server(w1.store).Some? && p1.rv == Server(w1.store).value.rv
    ensures Attached(w, w1, p1)
  {
    StillAttached(InPlace(w, p1), w1, p1);
  }

  lemma UpdateCall(w: World, original: Source, s: Source, o: Oracle, url: string)
    requires InRun(w, original, KeyOf(s), KeyOf(s), url) && GapsKeepUrl(o.gaps, url)
    requires w.store.cache.Some? && w.store.cache.value.finalizers != s.finalizers
    ensures CallPost(w, Update(w, s, o).0, Update(w, s, o).1, s, url)
  {
    var p1, w1 := BeforeUpdateCall(w, s, KeyOf(s), o, url);
    assert AtCall(w, w1, p1, s, url) && StoreOK(w1.store);
    hide Inv, OwedBut, OurLive, ServerHasOurs, StoreOK, Agrees, Moves, ApiUpdate, AtCall, Attached, Stores, CallPost;
    var entry := ApiUpdateShape(w1, p1, o.update);
    var r := ApiUpdate(w1.store, p1, o.update);
    var w' := w1.(store := r.0);
    assert Update(w, s, o) == (w', r.1);
    if r.1 || w' != w1 {
      AttachedHere(w, w1, p1);
    }
    if w' == w1 {
      NotStored(w, w1, p1, s, r.1, url);
    } else if F.OURS in s.finalizers {
      StoredAdding(w, w1, w', p1, s, entry, r.1, url);
    } else {
      StoredRemoving(w, w1, w', p1, s, entry, r.1, url);
    }
  }
}
