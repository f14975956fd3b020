/**
 What every step of the protocol keeps, for a source whose project URL never changes.

 The central fact is read-your-writes: every object that the cache holds, or can still be given,
 agrees with every later server version about the hook ID, unless that hook is gone.
 */
module Invariants {
  import opened Outcomes
  import opened Numerals
  import opened Sources
  import opened ProjectUrls
  import opened Hooks
  import opened Protocol
  import F = Finalizers

  ghost function Live(w: World): set<int> { LiveIds(w.gitlab) }

  function KeyOf(s: Source): string { s.status.webhookIDKey }

  /** The ID was issued, and its hook is no longer registered. */
  ghost predicate Dead(w: World, key: string) {
    Atoi(key).Some? && Atoi(key).value in w.gitlab.issued && Atoi(key).value !in Live(w)
  }

  // ---------- The store ----------

  /** In-place writes touch the status and the finalizers of the cached object, nothing else. */
  ghost predicate StoreOK(st: Store) {
    && st.seen < |st.log|
    && (forall i :: 0 <= i < |st.log| && st.log[i].Some? ==> st.log[i].value.rv == i)
    && (st.cache.None? <==> st.log[st.seen].None?)
    && (st.cache.Some? ==>
          var c, b := st.cache.value, st.log[st.seen].value;
          c == b.(status := c.status, finalizers := c.finalizers))
  }

  // ---------- Hook IDs ----------

  /** Every server version from `i` on stores no ID, the ID `key`, or the ID of a hook that is gone. */
  ghost predicate Agrees(w: World, key: string, i: nat) {
    forall j :: i <= j < |w.store.log| && w.store.log[j].Some? ==> KeyAgrees(w, key, KeyOf(w.store.log[j].value))
  }

  ghost predicate KeyAgrees(w: World, key: string, later: string) {
    later == "" || later == key || Dead(w, later)
  }

  ghost predicate EntryAgrees(w: World, entry: Option<Source>, i: nat) {
    Agrees(w, if entry.Some? then KeyOf(entry.value) else "", i)
  }

  ghost predicate ValidKey(w: World, key: string) {
    key == "" || exists id :: id in w.ledger.created && key == Itoa(id)
  }

  ghost predicate KeysOK(w: World) {
    && (w.store.cache.Some? ==> ValidKey(w, KeyOf(w.store.cache.value)))
    && (forall i :: 0 <= i < |w.store.log| && w.store.log[i].Some? ==> ValidKey(w, KeyOf(w.store.log[i].value)))
    && EntryAgrees(w, w.store.cache, w.store.seen)
    && (forall i :: w.store.seen < i < |w.store.log| ==> EntryAgrees(w, w.store.log[i], i))
  }

  // ---------- Finalizers ----------

  ghost predicate ServerHasOurs(w: World) {
    Server(w.store).Some? && F.OURS in Server(w.store).value.finalizers
  }

  /** No version that is still to be delivered promises a finalizer that the server has lost. */
  ghost predicate FinalizersOK(w: World) {
    forall i :: w.store.seen < i < |w.store.log| && w.store.log[i].Some? && F.OURS in w.store.log[i].value.finalizers
      ==> ServerHasOurs(w)
  }

  // ---------- GitLab ----------

  ghost predicate HooksOK(w: World, url: string) {
    && ValidGitLab(w.gitlab)
    && w.ledger.created <= w.gitlab.issued
    && (forall id :: id in w.ledger.created ==> IsInt64(id))
    && (forall h :: h in w.gitlab.hooks && h.id in w.ledger.created ==> AddressOf(url) == Ok(h.address))
    && (forall i :: 0 <= i < |w.store.log| && w.store.log[i].Some? ==> w.store.log[i].value.spec.projectURL == url)
  }

  ghost predicate Inv(w: World, url: string) {
    StoreOK(w.store) && KeysOK(w) && FinalizersOK(w) && HooksOK(w, url)
  }

  /** The hypothesis that the project URL of the source is `url` for ever. */
  predicate KeepsUrl(e: Event, url: string) {
    match e
    case CreateSource(_, _, spec) => spec.projectURL == url
    case EditSpec(spec) => spec.projectURL == url
    case _ => true
  }

  predicate AllKeepUrl(es: seq<Event>, url: string) {
    forall i :: 0 <= i < |es| ==> KeepsUrl(es[i], url)
  }

  predicate GapsKeepUrl(g: Gaps, url: string) {
    && AllKeepUrl(g.list, url) && AllKeepUrl(g.deployment, url) && AllKeepUrl(g.service, url)
    && AllKeepUrl(g.services, url) && AllKeepUrl(g.hook, url) && AllKeepUrl(g.status, url)
    && AllKeepUrl(g.statusCall, url) && AllKeepUrl(g.update, url) && AllKeepUrl(g.updateCall, url)
  }

  // ---------- How worlds may move ----------

  /** Hooks disappear or are new; nothing that was issued comes back. */
  ghost predicate Forward(w: World, w': World) {
    && w.gitlab.issued <= w'.gitlab.issued
    && (forall id :: id in Live(w') && id in w.gitlab.issued ==> id in Live(w))
    && w.ledger.created <= w'.ledger.created
  }

  lemma {:induction false} RemoveEverywhereFacts(hooks: seq<Hook>, id: int)
    requires DistinctIds(hooks)
    ensures DistinctIds(RemoveEverywhere(hooks, id))
    ensures forall h :: h in RemoveEverywhere(hooks, id) <==> h in hooks && h.id != id
  {
    if hooks != [] {
      RemoveEverywhereFacts(hooks[1..], id);
      assert hooks == [hooks[0]] + hooks[1..];
      var r := RemoveEverywhere(hooks[1..], id);
      forall j | 0 <= j < |r| ensures r[j].id != hooks[0].id {
        assert r[j] in hooks[1..];
      }
    }
  }

  lemma GitLabEventFacts(g: GitLab, e: Event)
    requires ValidGitLab(g)
    ensures var g' := GitLabEvent(g, e);
      && ValidGitLab(g') && g.issued <= g'.issued
      && (forall h :: h in g'.hooks ==> h in g.hooks || h.id !in g.issued)
      && (forall id :: id in LiveIds(g') && id in g.issued ==> id in LiveIds(g))
  {
    match e
    case OtherHook(h) =>
      AddFacts(g, h.address, h.id, h.config, Done);
    case RemoveHook(id) =>
      RemoveEverywhereFacts(g.hooks, id);
    case _ =>
  }

  // ---------- Appending a version ----------

  /** The store grows by one version that agrees with the current one about the ID. */
  ghost predicate Appends(w: World, w': World, entry: Option<Source>) {
    && w'.store == w.store.(log := w.store.log + [entry])
    && (entry.Some? ==> entry.value.rv == |w.store.log|)
    && (entry.Some? ==> KeyOf(entry.value) == "" || (Server(w.store).Some? && KeyOf(entry.value) == KeyOf(Server(w.store).value)))
  }

  lemma AppendKeepsAgreement(w: World, w': World, entry: Option<Source>, key: string, i: nat)
    requires w.store.log != [] && i < |w.store.log|
    requires Forward(w, w') && Appends(w, w', entry) && Agrees(w, key, i)
    ensures Agrees(w', key, i)
  {
    forall j | i <= j < |w'.store.log| && w'.store.log[j].Some?
      ensures KeyAgrees(w', key, KeyOf(w'.store.log[j].value))
    {
      var k := if j < |w.store.log| then j else |w.store.log| - 1;
      if w.store.log[k].Some? {
        assert KeyAgrees(w, key, KeyOf(w.store.log[k].value));
      }
    }
  }

  lemma SameLogKeepsAgreement(w: World, w': World, key: string, i: nat)
    requires Forward(w, w') && w'.store.log == w.store.log && Agrees(w, key, i)
    ensures Agrees(w', key, i)
  {
    forall j | i <= j < |w'.store.log| && w'.store.log[j].Some?
      ensures KeyAgrees(w', key, KeyOf(w'.store.log[j].value))
    {
      assert KeyAgrees(w, key, KeyOf(w.store.log[j].value));
    }
  }

  lemma AppendKeepsKeys(w: World, w': World, entry: Option<Source>)
    requires StoreOK(w.store) && KeysOK(w) && Forward(w, w') && Appends(w, w', entry)
    ensures KeysOK(w')
  {
    var n := |w.store.log|;
    forall i | w.store.seen <= i <= n
      ensures EntryAgrees(w', if i == w.store.seen then w'.store.cache else w'.store.log[i], i)
    {
      if i == n {
      } else {
        var e := if i == w.store.seen then w.store.cache else w.store.log[i];
        assert EntryAgrees(w, e, i);
        AppendKeepsAgreement(w, w', entry, if e.Some? then KeyOf(e.value) else "", i);
      }
    }
    assert n - 1 >= 0 && w.store.log[n - 1] == Server(w.store);
  }

  // ---------- Environment steps ----------

  /** What any sequence of environment steps does to the world, seen from a run in progress. */
  ghost predicate Moves(w: World, w': World) {
    && Forward(w, w')
    && w'.ledger == w.ledger && w'.namespace == w.namespace && w'.name == w.name
    && w.store.log <= w'.store.log
    && w.store.seen <= w'.store.seen < |w'.store.log|
    && (w'.store.seen == w.store.seen ==> w'.store.cache == w.store.cache)
    && (w'.store.seen > w.store.seen ==> w'.store.cache == w'.store.log[w'.store.seen])
    && (w'.store.seen > w.store.seen && w'.store.cache.Some? && F.OURS in w'.store.cache.value.finalizers ==> ServerHasOurs(w'))
    && (ServerHasOurs(w) ==> ServerHasOurs(w'))
    && (forall key :: Agrees(w, key, w.store.seen) ==> Agrees(w', key, w'.store.seen))
  }

  lemma MovesReflexive(w: World)
    requires w.store.seen < |w.store.log|
    ensures Moves(w, w)
  {
  }

  lemma MovesTransitive(a: World, b: World, c: World)
    requires Moves(a, b) && Moves(b, c)
    ensures Moves(a, c)
  {
    assert a.store.log == b.store.log[..|a.store.log|];
    assert b.store.log == c.store.log[..|b.store.log|];
    assert a.store.log == c.store.log[..|a.store.log|];
    if c.store.seen == b.store.seen && b.store.seen > a.store.seen {
      assert c.store.log[b.store.seen] == b.store.log[b.store.seen];
    }
  }

  lemma DeliveryKeepsAgreement(w: World, w': World, v: nat, key: string)
    requires w.store.seen < v < |w.store.log| && Forward(w, w')
    requires w'.store == w.store.(seen := v, cache := w.store.log[v])
    requires Agrees(w, key, w.store.seen)
    ensures Agrees(w', key, v)
  {
    forall j | v <= j < |w'.store.log| && w'.store.log[j].Some?
      ensures KeyAgrees(w', key, KeyOf(w'.store.log[j].value))
    {
      assert KeyAgrees(w, key, KeyOf(w.store.log[j].value));
    }
  }

  /** A new version: what `Moves` asks of it. */
  lemma AppendMoves(w: World, w': World, entry: Option<Source>)
    requires StoreOK(w.store) && Forward(w, w') && Appends(w, w', entry)
    requires w'.ledger == w.ledger && w'.namespace == w.namespace && w'.name == w.name
    requires ServerHasOurs(w) ==> entry.Some? && F.OURS in entry.value.finalizers
    ensures Moves(w, w')
  {
    forall key | Agrees(w, key, w.store.seen) ensures Agrees(w', key, w'.store.seen) {
      AppendKeepsAgreement(w, w', entry, key, w.store.seen);
    }
  }

  /**
   A version that the environment may append: the stored ID and our finalizer stay as they are while the object
   lives.
   */
  ghost predicate NewVersion(w: World, entry: Option<Source>, url: string) {
    && (ServerHasOurs(w) ==> entry.Some? && F.OURS in entry.value.finalizers)
    && (entry.None? ==> Server(w.store).Some? && F.OURS !in Server(w.store).value.finalizers)
    && (entry.Some? ==>
          var s := entry.value;
          && s.rv == |w.store.log|
          && s.spec.projectURL == url
          && (F.OURS in s.finalizers ==> ServerHasOurs(w))
          && KeyOf(s) == if Server(w.store).Some? then KeyOf(Server(w.store).value) else "")
  }

  /** Each event leaves the store alone, delivers a version, or appends one. */
  lemma StoreEventShape(w: World, e: Event, url: string)
    requires Inv(w, url) && KeepsUrl(e, url)
    ensures var st := StoreEvent(w, e);
      || st == w.store
      || (e.Deliver? && w.store.seen < e.version < |w.store.log| && st == w.store.(seen := e.version, cache := w.store.log[e.version]))
      || exists entry :: NewVersion(w, entry, url) && st == w.store.(log := w.store.log + [entry])
  {
    var st := StoreEvent(w, e);
    if st.log != w.store.log {
      var entry := st.log[|w.store.log|];
      assert NewVersion(w, entry, url) && st == w.store.(log := w.store.log + [entry]);
    }
  }

  lemma GitLabEventForward(w: World, e: Event, url: string)
    requires Inv(w, url) && KeepsUrl(e, url)
    ensures Forward(w, EnvStep(w, e))
    ensures ValidGitLab(EnvStep(w, e).gitlab)
    ensures forall h :: h in EnvStep(w, e).gitlab.hooks && h.id in w.ledger.created ==> AddressOf(url) == Ok(h.address)
  {
    GitLabEventFacts(w.gitlab, e);
  }

  lemma EnvStepInv(w: World, e: Event, url: string)
    requires Inv(w, url) && KeepsUrl(e, url)
    ensures Inv(EnvStep(w, e), url) && Moves(w, EnvStep(w, e))
  {
    var w' := EnvStep(w, e);
    GitLabEventForward(w, e, url);
    StoreEventShape(w, e, url);
    var st := w'.store;
    if st == w.store {
      SameStore(w, w');
    } else if e.Deliver? {
      Delivered(w, w', e.version);
    } else {
      var entry :| NewVersion(w, entry, url) && st == w.store.(log := w.store.log + [entry]);
      Appended(w, w', entry);
    }
  }

  lemma SameStore(w: World, w': World)
    requires StoreOK(w.store) && KeysOK(w) && FinalizersOK(w) && Forward(w, w') && w'.store == w.store
    ensures KeysOK(w') && FinalizersOK(w')
    ensures w'.ledger == w.ledger && w'.namespace == w.namespace && w'.name == w.name ==> Moves(w, w')
  {
    forall key, i: nat | Agrees(w, key, i) ensures Agrees(w', key, i) {
      SameLogKeepsAgreement(w, w', key, i);
    }
  }

  lemma Delivered(w: World, w': World, v: nat)
    requires StoreOK(w.store) && KeysOK(w) && FinalizersOK(w) && Forward(w, w')
    requires w.store.seen < v < |w.store.log|
    requires w'.store == w.store.(seen := v, cache := w.store.log[v])
    requires w'.ledger == w.ledger && w'.namespace == w.namespace && w'.name == w.name
    ensures StoreOK(w'.store) && KeysOK(w') && FinalizersOK(w') && Moves(w, w')
  {
    forall i | v <= i < |w.store.log| ensures EntryAgrees(w', w'.store.log[i], i) {
      assert EntryAgrees(w, w.store.log[i], i);
      var e := w.store.log[i];
      SameLogKeepsAgreement(w, w', if e.Some? then KeyOf(e.value) else "", i);
    }
    forall key | Agrees(w, key, w.store.seen) ensures Agrees(w', key, v) {
      DeliveryKeepsAgreement(w, w', v, key);
    }
  }

  lemma Appended(w: World, w': World, entry: Option<Source>)
    requires StoreOK(w.store) && KeysOK(w) && FinalizersOK(w) && Forward(w, w') && Appends(w, w', entry)
    requires w'.ledger == w.ledger && w'.namespace == w.namespace && w'.name == w.name
    requires ServerHasOurs(w) ==> entry.Some? && F.OURS in entry.value.finalizers
    ensures StoreOK(w'.store) && KeysOK(w') && FinalizersOK(w') && Moves(w, w')
  {
    AppendKeepsKeys(w, w', entry);
    AppendMoves(w, w', entry);
    forall i | w'.store.seen < i < |w'.store.log| && w'.store.log[i].Some? && F.OURS in w'.store.log[i].value.finalizers
      ensures ServerHasOurs(w')
    {
      if i < |w.store.log| {
        assert ServerHasOurs(w);
      }
    }
  }

  lemma {:induction false} EnvStepsInv(w: World, es: seq<Event>, url: string)
    requires Inv(w, url) && AllKeepUrl(es, url)
    ensures Inv(EnvSteps(w, es), url) && Moves(w, EnvSteps(w, es))
    decreases |es|
  {
    if es == [] {
      MovesReflexive(w);
    } else {
      var w1 := EnvStep(w, es[0]);
      EnvStepInv(w, es[0], url);
      assert AllKeepUrl(es[1..], url);
      EnvStepsInv(w1, es[1..], url);
      MovesTransitive(w, w1, EnvSteps(w1, es[1..]));
    }
  }
}
