/**
 Hook accounting over all histories.

 A hook that the controller created is owed when it is still registered in GitLab but the server
 object does not record it. The bound is proved through a potential that also counts a recorded
 hook whose object can vanish without being finalized, and a cached object that pretends to have
 a finalizer the server lacks, because the next run would register a hook without adding it.
 */
module Accounting {
  import opened Outcomes
  import opened SetSizes
  import opened Numerals
  import opened Sources
  import opened Protocol
  import opened Invariants
  import F = Finalizers

  /** The controller's hooks that are still registered. */
  ghost function OurLive(w: World): set<int> { w.ledger.created * Live(w) }

  /** The hook ID in the server's status. */
  ghost function RecordedId(w: World): set<int> {
    if Server(w.store).Some? && Atoi(KeyOf(Server(w.store).value)).Some? then {Atoi(KeyOf(Server(w.store).value)).value} else {}
  }

  /** The controller's hooks that are registered but not recorded: nothing will ever delete them. */
  ghost function Unrecorded(w: World): set<int> { OurLive(w) - RecordedId(w) }

  /** The recorded hook is live, and its object may go without a finalizer run. */
  ghost predicate Exposed(w: World) {
    RecordedId(w) * OurLive(w) != {} && !ServerHasOurs(w)
  }

  /** A live cached object without hook ID claims a finalizer that the server does not have. */
  ghost predicate MaskedBy(w: World, c: Source) {
    !c.deleting && KeyOf(c) == "" && F.OURS in c.finalizers && !ServerHasOurs(w)
  }

  ghost predicate Masked(w: World) { w.store.cache.Some? && MaskedBy(w, w.store.cache.value) }

  ghost function One(b: bool): nat { if b then 1 else 0 }

  /** Owed hooks other than `pending`, which a run still holds in its working copy. */
  ghost function OwedBut(w: World, pending: set<int>): nat { |Unrecorded(w) - pending| + One(Exposed(w)) }

  ghost function Owed(w: World): nat { OwedBut(w, {}) }

  ghost function Debt(w: World): nat { Owed(w) + One(Masked(w)) }

  lemma RecordedAtMostOne(w: World)
    ensures |RecordedId(w)| <= 1
  {
  }

  /** Unrecorded hooks may only come from the recorded one. */
  lemma OwedBySets(w: World, w': World, pending: set<int>)
    requires Unrecorded(w') <= Unrecorded(w) + RecordedId(w) * OurLive(w)
    requires Exposed(w') ==> Exposed(w) && Unrecorded(w') <= Unrecorded(w)
    requires RecordedId(w) * OurLive(w) != {} && !(Unrecorded(w') <= Unrecorded(w)) ==> Exposed(w)
    ensures OwedBut(w', pending) <= OwedBut(w, pending)
  {
    var u, u', r := Unrecorded(w) - pending, Unrecorded(w') - pending, RecordedId(w) * OurLive(w);
    if Unrecorded(w') <= Unrecorded(w) {
      SubsetSize(u', u);
    } else {
      SubsetSize(u', u + r);
      SubsetSize(r, RecordedId(w));
      RecordedAtMostOne(w);
      assert |u + r| <= |u| + |r|;
      assert Exposed(w);
    }
  }

  // ---------- The environment owes nothing new ----------

  lemma OwedIfIdKept(w: World, w': World, pending: set<int>)
    requires OurLive(w') <= OurLive(w) && RecordedId(w') == RecordedId(w)
    requires ServerHasOurs(w) ==> ServerHasOurs(w')
    ensures OwedBut(w', pending) <= OwedBut(w, pending)
  {
    OwedBySets(w, w', pending);
  }

  lemma OwedIfIdDropped(w: World, w': World, pending: set<int>)
    requires OurLive(w') <= OurLive(w) && RecordedId(w') == {}
    requires !ServerHasOurs(w)
    ensures OwedBut(w', pending) <= OwedBut(w, pending)
  {
    OwedBySets(w, w', pending);
  }

  lemma NewVersionRecorded(w: World, w': World, entry: Option<Source>, url: string)
    requires w.store.log != [] && NewVersion(w, entry, url) && w'.store == w.store.(log := w.store.log + [entry])
    ensures if entry.Some? then RecordedId(w') == RecordedId(w) else RecordedId(w') == {}
    ensures Server(w'.store) == entry
  {
  }

  lemma EnvStepOwed(w: World, e: Event, pending: set<int>, url: string)
    requires Inv(w, url) && KeepsUrl(e, url)
    ensures OwedBut(EnvStep(w, e), pending) <= OwedBut(w, pending)
    ensures OurLive(EnvStep(w, e)) <= OurLive(w)
  {
    hide StoreEvent, KeysOK, FinalizersOK, OwedBut;
    var w' := EnvStep(w, e);
    GitLabEventForward(w, e, url);
    assert OurLive(w') <= OurLive(w);
    StoreEventShape(w, e, url);
    if w'.store.log == w.store.log {
      OwedIfIdKept(w, w', pending);
    } else {
      var entry :| NewVersion(w, entry, url) && w'.store == w.store.(log := w.store.log + [entry]);
      NewVersionRecorded(w, w', entry, url);
      if entry.Some? { OwedIfIdKept(w, w', pending); } else { OwedIfIdDropped(w, w', pending); }
    }
  }

  lemma {:induction false} EnvStepsOwed(w: World, es: seq<Event>, pending: set<int>, url: string)
    requires Inv(w, url) && AllKeepUrl(es, url)
    ensures OwedBut(EnvSteps(w, es), pending) <= OwedBut(w, pending)
    ensures OurLive(EnvSteps(w, es)) <= OurLive(w)
    decreases |es|
  {
    if es != [] {
      EnvStepOwed(w, es[0], pending, url);
      EnvStepInv(w, es[0], url);
      assert AllKeepUrl(es[1..], url);
      EnvStepsOwed(EnvStep(w, es[0]), es[1..], pending, url);
    }
  }

  // ---------- A run in progress ----------

  /** A finalizer that the cached object claims and the server lacks was already claimed by the object the run read. */
  ghost predicate Kept(w: World, original: Source, key: string) {
    w.store.cache.Some? && F.OURS in w.store.cache.value.finalizers && !ServerHasOurs(w) ==>
      var p := w.store.cache.value;
      p.finalizers == original.finalizers && p.deleting == original.deleting && (!p.deleting ==> KeyOf(p) == key)
  }

  /** `key` is the ID in the working copy, `cachedKey` the one a claiming cached object has. */
  ghost predicate InRun(w: World, original: Source, key: string, cachedKey: string, url: string) {
    Inv(w, url) && Agrees(w, key, w.store.seen) && ValidKey(w, key) && Kept(w, original, cachedKey)
  }

  lemma EnvInRun(w: World, es: seq<Event>, original: Source, key: string, cachedKey: string, pending: set<int>, url: string)
    requires InRun(w, original, key, cachedKey, url) && AllKeepUrl(es, url)
    ensures var w' := EnvSteps(w, es);
      && InRun(w', original, key, cachedKey, url) && Moves(w, w')
      && OwedBut(w', pending) <= OwedBut(w, pending) && OurLive(w') <= OurLive(w)
      && (MaskedBy(w', original) ==> MaskedBy(w, original))
  {
    EnvStepsInv(w, es, url);
    EnvStepsOwed(w, es, pending, url);
  }

  /** No object in the cache or still to come carries `key`. */
  ghost predicate NoKey(w: World, key: string) {
    && (w.store.cache.Some? ==> KeyOf(w.store.cache.value) != key)
    && (forall i :: w.store.seen <= i < |w.store.log| && w.store.log[i].Some? ==> KeyOf(w.store.log[i].value) != key)
  }

  lemma EnvStepNoKey(w: World, e: Event, key: string, url: string)
    requires Inv(w, url) && KeepsUrl(e, url) && NoKey(w, key) && key != ""
    ensures NoKey(EnvStep(w, e), key)
  {
    StoreEventShape(w, e, url);
    var w' := EnvStep(w, e);
    if w'.store.log != w.store.log {
      var entry :| NewVersion(w, entry, url) && w'.store == w.store.(log := w.store.log + [entry]);
      assert Server(w.store) == w.store.log[|w.store.log| - 1];
    }
  }

  lemma {:induction false} EnvStepsNoKey(w: World, es: seq<Event>, key: string, url: string)
    requires Inv(w, url) && AllKeepUrl(es, url) && NoKey(w, key) && key != ""
    ensures NoKey(EnvSteps(w, es), key)
    decreases |es|
  {
    if es != [] {
      EnvStepNoKey(w, es[0], key, url);
      EnvStepInv(w, es[0], url);
      assert AllKeepUrl(es[1..], url);
      EnvStepsNoKey(EnvStep(w, es[0]), es[1..], key, url);
    }
  }
}
