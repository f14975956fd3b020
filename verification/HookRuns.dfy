/** One run of `Reconcile`: what it adds to the hook debt. */
module HookRuns {
  import opened Outcomes
  import opened Numerals
  import opened Settling
  import opened Sources
  import opened ProjectUrls
  import opened Hooks
  import opened Resources
  import opened Protocol
  import opened Invariants
  import opened Accounting
  import F = Finalizers

  // ---------- The working copy ----------

  /** The body of a run reads the cached object `original` in `w0` and leaves the world and working copy of `b`. */
  ghost predicate BodyPost(w0: World, original: Source, b: Step, pending: set<int>, url: string) {
    var w1, s := b.world, b.source;
    && InRun(w1, original, KeyOf(s), KeyOf(original), url)
    && s == original.(status := s.status, finalizers := s.finalizers)
    && w1.ledger.errors == w0.ledger.errors
    && w0.ledger.lostReplies <= w1.ledger.lostReplies <= w0.ledger.lostReplies + 1
    && (w1.ledger.lostReplies > w0.ledger.lostReplies ==> b.result.Failure? && !original.deleting && b.source.finalizers == F.Add(original.finalizers))
    && (MaskedBy(w1, original) ==> MaskedBy(w0, original))
    && OwedBut(w1, pending) <= Owed(w0) + w1.ledger.lostReplies - w0.ledger.lostReplies
    && (if original.deleting
        then s.finalizers == F.Remove(original.finalizers) && (KeyOf(s) != "" ==> !b.result.Success?)
        else s.finalizers == original.finalizers || s.finalizers == F.Add(original.finalizers))
    && (if pending == {}
        then KeyOf(s) == KeyOf(original) || (original.deleting && KeyOf(s) == "")
        else HookPending(w1, original, b, pending))
  }

  /** The run has registered a hook that only its working copy knows. */
  ghost predicate HookPending(w1: World, original: Source, b: Step, pending: set<int>) {
    && !original.deleting && KeyOf(original) == ""
    && b.source.finalizers == F.Add(original.finalizers)
    && b.result.Success?
    && NoKey(w1, KeyOf(b.source))
    && IdIs(KeyOf(b.source), pending)
  }

  ghost predicate IdIs(key: string, ids: set<int>) {
    key != "" && Atoi(key).Some? && ids == {Atoi(key).value}
  }

  /** A run in progress that has changed nothing that could be owed. `k` is the ID it read. */
  ghost predicate Mid(w0: World, w: World, original: Source, k: string, url: string) {
    && InRun(w, original, k, k, url)
    && w.ledger.errors == w0.ledger.errors && w.ledger.lostReplies == w0.ledger.lostReplies
    && (MaskedBy(w, original) ==> MaskedBy(w0, original))
    && Owed(w) <= Owed(w0)
  }

  lemma MidEnv(w0: World, w: World, es: seq<Event>, original: Source, k: string, url: string)
    requires Mid(w0, w, original, k, url) && AllKeepUrl(es, url)
    ensures Mid(w0, EnvSteps(w, es), original, k, url)
  {
    EnvInRun(w, es, original, k, k, {}, url);
  }

  /** Invariant, debt and run facts depend on the store, GitLab and the ledger of hooks only. */
  ghost predicate SameCore(w: World, w': World) {
    && w'.store == w.store && w'.gitlab == w.gitlab && w'.ledger.created == w.ledger.created
    && w'.ledger.errors == w.ledger.errors && w'.ledger.lostReplies == w.ledger.lostReplies
  }

  lemma CoreInv(w: World, w': World, url: string)
    requires Inv(w, url) && SameCore(w, w')
    ensures Inv(w', url)
  {
    SameStore(w, w');
  }

  lemma CoreOwed(w: World, w': World)
    requires SameCore(w, w')
    ensures Owed(w') == Owed(w)
  {
    assert Unrecorded(w') == Unrecorded(w);
  }

  lemma MidCore(w0: World, w: World, w': World, original: Source, k: string, url: string)
    requires Mid(w0, w, original, k, url) && SameCore(w, w')
    ensures Mid(w0, w', original, k, url)
  {
    hide Inv, OwedBut, Agrees;
    CoreInv(w, w', url);
    CoreOwed(w, w');
    SameLogKeepsAgreement(w, w', k, w.store.seen);
  }

  lemma RunStarts(w: World, url: string)
    requires Inv(w, url) && w.store.cache.Some?
    ensures var c := w.store.cache.value; Mid(w, w, c, KeyOf(c), url) && c.spec.projectURL == url
  {
  }

  /** Nothing but the environment and the children has changed so far. */
  lemma QuietPost(w0: World, original: Source, b: Step, url: string)
    requires Mid(w0, b.world, original, KeyOf(original), url)
    requires b.source == original.(status := b.source.status, finalizers := b.source.finalizers)
    requires KeyOf(b.source) == KeyOf(original)
    requires if original.deleting
             then b.source.finalizers == F.Remove(original.finalizers) && (KeyOf(b.source) != "" ==> !b.result.Success?)
             else b.source.finalizers == original.finalizers || b.source.finalizers == F.Add(original.finalizers)
    ensures BodyPost(w0, original, b, {}, url)
  {
  }

  lemma ChildrenPost(w0: World, w: World, original: Source, s: Source, o: Oracle, url: string)
    requires Mid(w0, w, original, KeyOf(original), url) && GapsKeepUrl(o.gaps, url)
    requires s == original.(status := s.status) && KeyOf(s) == KeyOf(original) && !original.deleting
    ensures BodyPost(w0, original, MakeChildren(w, s, o), {}, url)
  {
    hide Inv, OwedBut, Agrees;
    var k := KeyOf(original);
    var w1 := EnvSteps(w, o.gaps.deployment);
    MidEnv(w0, w, o.gaps.deployment, original, k, url);
    var w2 := AddReceiver(w1, s, o);
    MidCore(w0, w1, w2, original, k, url);
    if o.createDeployment.Done? {
      var w3 := EnvSteps(w2, o.gaps.service);
      MidEnv(w0, w2, o.gaps.service, original, k, url);
      MidCore(w0, w3, AddService(w3, s, o), original, k, url);
    }
    QuietPost(w0, original, MakeChildren(w, s, o), url);
  }

  lemma FreshIdIsNotStored(w: World, id: int, key: string)
    requires ValidKey(w, key) && id !in w.ledger.created && IsInt64(id)
    requires forall i :: i in w.ledger.created ==> IsInt64(i)
    ensures key != Itoa(id)
  {
    AtoiItoa(id);
    if key != "" {
      var i :| i in w.ledger.created && key == Itoa(i);
      AtoiItoa(i);
    }
  }

  lemma RecordedIsCreated(w: World, url: string)
    requires Inv(w, url)
    ensures RecordedId(w) <= w.ledger.created
  {
    if Server(w.store).Some? {
      assert ValidKey(w, KeyOf(w.store.log[|w.store.log| - 1].value));
      ValidKeyId(w, KeyOf(Server(w.store).value), url);
    }
  }

  /** `w'` is `w` after GitLab added the hook `h` for this controller. */
  ghost predicate Joins(w: World, w': World, h: Hook, url: string) {
    && h.id !in w.gitlab.issued && IsInt64(h.id) && AddressOf(url) == Ok(h.address)
    && ValidGitLab(w'.gitlab) && w'.store == w.store
    && w'.gitlab.hooks == w.gitlab.hooks + [h] && w'.gitlab.issued == w.gitlab.issued + {h.id}
    && Live(w') == Live(w) + {h.id}
    && w'.ledger.created == w.ledger.created + {h.id}
  }

  lemma HookJoins(w: World, w': World, h: Hook, url: string)
    requires Inv(w, url) && Joins(w, w', h, url)
    ensures Inv(w', url) && Forward(w, w') && NoKey(w', Itoa(h.id))
  {
    SameStore(w, w');
    forall key | ValidKey(w, key) ensures key != Itoa(h.id) {
      FreshIdIsNotStored(w, h.id, key);
    }
  }

  /** It is the only new owed hook. */
  lemma HookJoinsOwed(w: World, w': World, h: Hook, url: string)
    requires Inv(w, url) && Joins(w, w', h, url)
    ensures OwedBut(w', {h.id}) <= Owed(w) && Owed(w') <= Owed(w) + 1
  {
    RecordedIsCreated(w, url);
    assert h.id !in w.ledger.created;
    assert RecordedId(w') == RecordedId(w);
    assert OurLive(w') == OurLive(w) + {h.id};
    assert Unrecorded(w') == Unrecorded(w) + {h.id};
    assert Unrecorded(w') - {h.id} == Unrecorded(w) - {};
    assert Unrecorded(w') - {} == (Unrecorded(w) - {}) + {h.id};
  }

  /** A stored ID parses back to a hook that the controller created. */
  lemma ValidKeyId(w: World, key: string, url: string)
    requires HooksOK(w, url) && ValidKey(w, key)
    ensures key != "" <==> Atoi(key).Some?
    ensures key != "" ==> Atoi(key).value in w.ledger.created
  {
    if key != "" {
      var id :| id in w.ledger.created && key == Itoa(id);
      AtoiItoa(id);
    }
  }

  /** The reply was lost: the hook is owed at once, and booked as a lost reply. */
  lemma LostPost(w0: World, w: World, original: Source, b: Step, h: Hook, url: string)
    requires Mid(w0, w, original, "", url) && Joins(w, b.world, h, url)
    requires b.world.ledger.errors == w.ledger.errors && b.world.ledger.lostReplies == w.ledger.lostReplies + 1
    requires b.result.Failure? && KeyOf(b.source) == KeyOf(original) == "" && !original.deleting
    requires b.source == original.(status := b.source.status, finalizers := F.Add(original.finalizers))
    ensures BodyPost(w0, original, b, {}, url)
  {
    hide Inv, OwedBut, Agrees;
    HookJoins(w, b.world, h, url);
    HookJoinsOwed(w, b.world, h, url);
    SameLogKeepsAgreement(w, b.world, "", w.store.seen);
  }

  /** The run goes on with the new ID in its working copy. */
  lemma JoinedRun(w: World, w': World, original: Source, h: Hook, url: string)
    requires InRun(w, original, "", "", url) && Joins(w, w', h, url)
    ensures InRun(w', original, Itoa(h.id), "", url) && (MaskedBy(w', original) ==> MaskedBy(w, original))
  {
    hide Inv, Agrees;
    HookJoins(w, w', h, url);
    SameLogKeepsAgreement(w, w', "", w.store.seen);
    AgreesWeaken(w', Itoa(h.id), w.store.seen);
    assert h.id in w'.ledger.created;
  }

  lemma PendingPost(w0: World, w: World, original: Source, b: Step, h: Hook, url: string)
    requires Mid(w0, w, original, "", url) && Joins(w, b.world, h, url)
    requires b.world.ledger.errors == w.ledger.errors && b.world.ledger.lostReplies == w.ledger.lostReplies
    requires b.result.Success? && KeyOf(b.source) == Itoa(h.id) && KeyOf(original) == "" && !original.deleting
    requires b.source == original.(status := b.source.status, finalizers := F.Add(original.finalizers))
    ensures BodyPost(w0, original, b, {h.id}, url)
  {
    hide Inv, OwedBut, Joins, MaskedBy, NoKey, Itoa, Atoi, F.Add;
    InRunInv(w, original, url);
    HookJoins(w, b.world, h, url);
    HookJoinsOwed(w, b.world, h, url);
    JoinedRun(w, b.world, original, h, url);
    JoinedId(w, b.world, h, url);
  }

  lemma InRunInv(w: World, original: Source, url: string)
    requires InRun(w, original, "", "", url)
    ensures Inv(w, url)
  {
  }

  lemma JoinedId(w: World, w': World, h: Hook, url: string)
    requires Joins(w, w', h, url)
    ensures IdIs(Itoa(h.id), {h.id})
  {
    AtoiItoa(h.id);
  }

  /** `CreateWebhook` changes nothing, or one hook joins and the ledger says whether the caller knows. */
  lemma CreateShape(w: World, s: Source, domain: string, o: Oracle, url: string)
    requires Inv(w, url) && s.spec.projectURL == url
    ensures var b := CreateWebhook(w, s, domain, o);
      if b.world == w then b.source == s && !b.result.Success?
      else
        && AddressOf(url).Ok?
        && Joins(w, b.world, Hook(o.hookId, AddressOf(url).value, HookConfigOf(s, domain, o)), url)
        && b.world.ledger.errors == w.ledger.errors
        && (if b.result.Success?
            then b.world.ledger.lostReplies == w.ledger.lostReplies && b.source == s.(status := s.status.(webhookIDKey := Itoa(o.hookId)))
            else b.world.ledger.lostReplies == w.ledger.lostReplies + 1 && b.source == s && b.result.Failure?)
  {
    if AddressOf(url).Ok? {
      AddFacts(w.gitlab, AddressOf(url).value, o.hookId, HookConfigOf(s, domain, o), o.addHook);
    }
  }

  lemma CreatePost(w0: World, w: World, original: Source, s: Source, domain: string, o: Oracle, url: string) returns (pending: set<int>)
    requires Mid(w0, w, original, "", url)
    requires s == original.(status := s.status, finalizers := F.Add(original.finalizers))
    requires KeyOf(s) == KeyOf(original) == "" && !original.deleting && original.spec.projectURL == url
    ensures BodyPost(w0, original, CreateWebhook(w, s, domain, o), pending, url)
  {
    hide Inv, OwedBut, Agrees, Joins, CreateWebhook, HookConfigOf, AddressOf;
    pending := {};
    var b := CreateWebhook(w, s, domain, o);
    CreateShape(w, s, domain, o, url);
    if b.world == w {
      QuietPost(w0, original, b, url);
    } else {
      var h := Hook(o.hookId, AddressOf(url).value, HookConfigOf(s, domain, o));
      if b.result.Success? {
        pending := {o.hookId};
        PendingPost(w0, w, original, b, h, url);
      } else {
        LostPost(w0, w, original, b, h, url);
      }
    }
  }

  lemma AgreesWeaken(w: World, key: string, i: nat)
    requires Agrees(w, "", i)
    ensures Agrees(w, key, i)
  {
    forall j | i <= j < |w.store.log| && w.store.log[j].Some? ensures KeyAgrees(w, key, KeyOf(w.store.log[j].value)) {
      assert KeyAgrees(w, "", KeyOf(w.store.log[j].value));
    }
  }

  lemma RegisterPost(w0: World, w: World, original: Source, s: Source, o: Oracle, url: string) returns (pending: set<int>)
    requires Mid(w0, w, original, KeyOf(original), url) && GapsKeepUrl(o.gaps, url)
    requires s == original.(status := s.status) && KeyOf(s) == KeyOf(original) && !original.deleting && original.spec.projectURL == url
    ensures BodyPost(w0, original, RegisterHook(w, s, o), pending, url)
  {
    pending := {};
    var k := KeyOf(original);
    var s1 := s.(finalizers := F.Add(s.finalizers));
    var w1 := EnvSteps(w, o.gaps.services);
    MidEnv(w0, w, o.gaps.services, original, k, url);
    var svc := ChooseService(w1.kube.services, s1);
    if o.listServicesFails || svc.None? || svc.value.ingress == [] || svc.value.nodePorts == [] || k != "" {
      QuietPost(w0, original, RegisterHook(w, s, o), url);
    } else {
      MidEnv(w0, w1, o.gaps.hook, original, k, url);
      pending := CreatePost(w0, EnvSteps(w1, o.gaps.hook), original, s1, svc.value.ingress[0] + ":" + Itoa(svc.value.nodePorts[0]), o, url);
    }
  }

  lemma LivePost(w: World, original: Source, o: Oracle, url: string) returns (pending: set<int>)
    requires Inv(w, url) && w.store.cache == Some(original) && !original.deleting && GapsKeepUrl(o.gaps, url)
    ensures BodyPost(w, original, ReconcileLive(w, original, o), pending, url)
  {
    pending := {};
    RunStarts(w, url);
    var k := KeyOf(original);
    var a := SettleStatus(original.spec, original.status, o);
    SettleKeepsKey(original.spec, original.status, o);
    var s1 := original.(status := a.status);
    if a.result != Success {
      QuietPost(w, original, ReconcileLive(w, original, o), url);
    } else {
      var w1 := EnvSteps(w, o.gaps.list);
      MidEnv(w, w, o.gaps.list, original, k, url);
      if o.listDeploymentsFails {
        QuietPost(w, original, ReconcileLive(w, original, o), url);
      } else if !HasReceiver(w1.kube.deployments, s1) {
        ChildrenPost(w, w1, original, s1, o, url);
      } else {
        pending := RegisterPost(w, w1, original, s1, o, url);
      }
    }
  }

  /** A successful `Delete` at the source's address means that the hook is gone. */
  lemma HookLeaves(w: World, w': World, key: string, listFails: bool, reply: Reply, url: string)
    requires Inv(w, url) && ValidKey(w, key) && key != "" && AddressOf(url).Ok?
    requires w' == w.(gitlab := Delete(w.gitlab, AddressOf(url).value, key, listFails, reply).0)
    ensures Inv(w', url) && Forward(w, w') && OurLive(w') <= OurLive(w)
    ensures Delete(w.gitlab, AddressOf(url).value, key, listFails, reply).1 ==> Dead(w', key)
  {
    DeleteFacts(w.gitlab, AddressOf(url).value, key, listFails, reply);
    ValidKeyId(w, key, url);
    SameStore(w, w');
  }

  lemma DeletePost(w0: World, w: World, original: Source, s: Source, o: Oracle, url: string)
    requires Mid(w0, w, original, KeyOf(original), url)
    requires s == original.(finalizers := F.Remove(original.finalizers))
    requires KeyOf(original) != "" && original.deleting && original.spec.projectURL == url
    ensures BodyPost(w0, original, DeleteWebhook(w, s, o), {}, url)
  {
    hide Inv, OwedBut, Agrees, Delete, AddressOf, F.Remove;
    var b, k := DeleteWebhook(w, s, o), KeyOf(original);
    if AddressOf(url).Ok? {
      HookLeaves(w, b.world, k, o.listHooksFails, o.deleteHook, url);
      OwedIfIdKept(w, b.world, {});
      SameLogKeepsAgreement(w, b.world, k, w.store.seen);
      if b.result.Success? {
        AgreesForgets(b.world, k, w.store.seen);
      }
    } else {
      QuietPost(w0, original, b, url);
    }
  }

  lemma FinalizePost(w: World, original: Source, o: Oracle, url: string)
    requires Inv(w, url) && w.store.cache == Some(original) && original.deleting && GapsKeepUrl(o.gaps, url)
    ensures BodyPost(w, original, Finalize(w, original, o), {}, url)
  {
    RunStarts(w, url);
    var k := KeyOf(original);
    if k == "" || original.spec.accessToken.None? || o.accessToken.Missing? {
      QuietPost(w, original, Finalize(w, original, o), url);
    } else {
      MidEnv(w, w, o.gaps.hook, original, k, url);
      DeletePost(w, EnvSteps(w, o.gaps.hook), original, original.(finalizers := F.Remove(original.finalizers)), o, url);
    }
  }

  lemma AgreesForgets(w: World, key: string, i: nat)
    requires Agrees(w, key, i) && Dead(w, key)
    ensures Agrees(w, "", i)
  {
    forall j | i <= j < |w.store.log| && w.store.log[j].Some? ensures KeyAgrees(w, "", KeyOf(w.store.log[j].value)) {
      assert KeyAgrees(w, key, KeyOf(w.store.log[j].value));
    }
  }

  lemma BodyFacts(w: World, original: Source, o: Oracle, url: string) returns (pending: set<int>)
    requires Inv(w, url) && w.store.cache == Some(original) && GapsKeepUrl(o.gaps, url)
    ensures BodyPost(w, original, Body(w, original, o), pending, url)
  {
    if original.deleting {
      FinalizePost(w, original, o, url);
      pending := {};
    } else {
      pending := LivePost(w, original, o, url);
    }
  }
}
