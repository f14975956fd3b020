/**
 What one run does for a live source, by what it finds: a lookup that fails, no receiver yet, or a receiver
 and no hook; and when it returns nil, an error, or panics.
 */
module LiveRuns {
  import opened Outcomes
  import opened Numerals
  import opened Statuses
  import opened Settling
  import opened Sources
  import opened ProjectUrls
  import opened Hooks
  import opened Resources
  import opened Protocol
  import opened Invariants
  import opened Bookkeeping
  import opened Convergence
  import opened LostWrites
  import opened ExactLeaks
  import F = Finalizers

  // ---------- A lookup that fails ----------

  /** The run reads the live object `s`. */
  ghost predicate Reads(w: World, s: Source, o: Oracle) {
    !o.listerFails && w.store.cache == Some(s) && !s.deleting && Sorted(s.status.conditions)
  }

  /**
   The run returns an error and creates nothing. When nobody else acts it leaves everything but the status as
   it was: the cached object has the status `st`, and so has the server if that is new and the write accepted.
   */
  ghost predicate OnlyMarks(w: World, s: Source, o: Oracle, st: Status) {
    var r := Reconcile(w, o);
    && r.1.Failure? && r.0.ledger == w.ledger.(errors := w.ledger.errors + 1)
    && (Undisturbed(o) ==>
          && r.0 == w.(store := r.0.store, ledger := r.0.ledger) && r.0.store.cache == Some(s.(status := st))
          && (st != s.status && Current(w, s) && o.updateStatus.Done? ==> Server(r.0.store).Some? && Server(r.0.store).value.status == st))
  }

  lemma StopsAtStatus(w: World, s: Source, o: Oracle, st: Status)
    requires Reads(w, s, o) && Body(w, s, o) == Step(w, s.(status := st), Failure)
    ensures OnlyMarks(w, s, o, st)
  {
    hide Body, WriteBack;
    var src := s.(status := st);
    WriteBackKeeps(w, s, src, Failure, o);
    if Undisturbed(o) { MarksWritten(w, s, o, src); }
  }

  lemma MarksWritten(w: World, s: Source, o: Oracle, src: Source)
    requires w.store.cache == Some(s) && src == s.(status := src.status) && Undisturbed(o)
    ensures var r := WriteBack(w, s, src, Failure, o);
      && r.0 == w.(store := r.0.store) && r.0.store.cache == Some(src)
      && (src.status != s.status && Current(w, s) && o.updateStatus.Done? ==> Server(r.0.store).Some? && Server(r.0.store).value.status == src.status)
  {
    Resting(w);
    Resting(WriteStatus(w, s, src, o).0);
    Resting(w.(store := w.store.(cache := Some(src))));
  }

  /** A condition that the run does not mark is as it was, or unknown when there was none. */
  ghost predicate Untouched(before: seq<Condition>, after: seq<Condition>, t: ConditionType, now: int) {
    Get(after, t) == if Get(before, t).Some? then Get(before, t) else Some(Condition(t, Unknown, "", "", now))
  }

  /** The status is `st` but for the conditions. */
  predicate SameFields(st: Status, st': Status) { st'.webhookIDKey == st.webhookIDKey && st'.sinkURI == st.sinkURI }

  /** No access token: SecretsProvided and Ready say so, with the text of the error. */
  lemma MissingAccessToken(w: World, s: Source, o: Oracle) returns (st: Status)
    requires Reads(w, s, o) && s.spec.accessToken.Some? && o.accessToken.Missing?
    ensures OnlyMarks(w, s, o, st) && SameFields(s.status, st)
    ensures Holds(st.conditions, SecretsProvided, False, "AccessTokenNotFound", o.accessToken.error)
    ensures Holds(st.conditions, Ready, False, "AccessTokenNotFound", o.accessToken.error)
    ensures Untouched(s.status.conditions, st.conditions, SinkProvided, o.now)
  {
    hide Apply, Reconcile;
    var s0 := Apply(s.status, InitializeConditions, o.now);
    var op := MarkNoSecrets("AccessTokenNotFound", o.accessToken.error);
    InitializedSorted(s.status, o.now);
    OpOutcome(s.status, InitializeConditions, o.now);
    OpOutcome(s0, op, o.now);
    st := Apply(s0, op, o.now);
    StopsAtStatus(w, s, o, st);
  }

  /** No secret token, though the access token is there. */
  lemma MissingSecretToken(w: World, s: Source, o: Oracle) returns (st: Status)
    requires Reads(w, s, o) && s.spec.accessToken.Some? && o.accessToken.Found? && s.spec.secretToken.Some? && o.secretToken.Missing?
    ensures OnlyMarks(w, s, o, st) && SameFields(s.status, st)
    ensures Holds(st.conditions, SecretsProvided, False, "SecretTokenNotFound", o.secretToken.error)
    ensures Holds(st.conditions, Ready, False, "SecretTokenNotFound", o.secretToken.error)
    ensures Untouched(s.status.conditions, st.conditions, SinkProvided, o.now)
  {
    hide Apply, Reconcile;
    var s0 := Apply(s.status, InitializeConditions, o.now);
    var op := MarkNoSecrets("SecretTokenNotFound", o.secretToken.error);
    InitializedSorted(s.status, o.now);
    OpOutcome(s.status, InitializeConditions, o.now);
    OpOutcome(s0, op, o.now);
    st := Apply(s0, op, o.now);
    StopsAtStatus(w, s, o, st);
  }

  /** Both secrets are there, and the sink that the source refers to is not. */
  lemma UnresolvedSink(w: World, s: Source, o: Oracle) returns (st: Status)
    requires Reads(w, s, o) && s.spec.accessToken.Some? && o.accessToken.Found? && s.spec.secretToken.Some? && o.secretToken.Found?
    requires s.spec.sink.Some? && o.sink.Missing?
    ensures OnlyMarks(w, s, o, st) && SameFields(s.status, st)
    ensures Holds(st.conditions, SecretsProvided, True, "", "")
    ensures Holds(st.conditions, SinkProvided, False, "NotFound", o.sink.error) && Holds(st.conditions, Ready, False, "NotFound", o.sink.error)
  {
    hide Apply, Reconcile;
    var s0 := Apply(s.status, InitializeConditions, o.now);
    var s1 := Apply(s0, MarkSecrets, o.now);
    var op := MarkNoSink("NotFound", o.sink.error);
    InitializedSorted(s.status, o.now);
    SecretsSorted(s0, o.now);
    OpOutcome(s.status, InitializeConditions, o.now);
    OpOutcome(s0, MarkSecrets, o.now);
    OpOutcome(s1, op, o.now);
    st := Apply(s1, op, o.now);
    StopsAtStatus(w, s, o, st);
  }

  lemma InitializedSorted(st: Status, now: int)
    requires Sorted(st.conditions)
    ensures Sorted(Apply(st, InitializeConditions, now).conditions)
  {
    InitializeKeeps(st.conditions, now);
  }

  lemma SecretsSorted(st: Status, now: int)
    requires Sorted(st.conditions)
    ensures Sorted(Apply(st, MarkSecrets, now).conditions)
  {
    DependentMembers();
    MarkTrueHolds(st.conditions, SecretsProvided, now);
  }

  // ---------- No receiver yet ----------

  /** The receiver of `s` as the run makes it, sending to `sinkURI`. */
  ghost predicate IsNewReceiver(d: Deployment, s: Source, sinkURI: string, o: Oracle) {
    && d.namespace == s.namespace && d.controller == Some(s.uid) && d.name == s.name + "-deployment" + o.deploymentSuffix
    && d.labels == map["eventing-source" := "gitlab-source-controller", "eventing-source-name" := s.name]
    && d.image == o.image && d.sinkURI == sinkURI && d.secretToken == s.spec.secretToken && d.serviceAccountName == s.spec.serviceAccountName
  }

  /** The public Service of `s` as the run makes it. */
  ghost predicate IsNewService(v: Service, s: Source, o: Oracle) {
    && v.namespace == s.namespace && v.controller == Some(s.uid) && v.name == s.name + "-service" + o.serviceSuffix
    && v.labels == map["eventing-source" := "gitlab-source-controller", "eventing-source-name" := s.name]
  }

  /** The sink that the receiver is given: what was resolved, or, with no sink at all, what the status had from before. */
  function SinkFor(s: Source, o: Oracle): string {
    if Resolved(s.spec, o).Some? then Resolved(s.spec, o).value else s.status.sinkURI
  }

  lemma SettledURI(s: Source, o: Oracle)
    requires Available(s.spec, o)
    ensures SettleStatus(s.spec, s.status, o).status.sinkURI == SinkFor(s, o)
  {
    hide MarkTrue, MarkFalse, MarkUnknown, InitializeOne;
  }

  /** The lookup for the receiver comes out empty. */
  ghost predicate NoReceiver(w: World, s: Source, o: Oracle) {
    && !o.listerFails && w.store.cache == Some(s) && !s.deleting && Available(s.spec, o)
    && !o.listDeploymentsFails && !HasReceiver(EnvSteps(w, o.gaps.list).kube.deployments, s)
  }

  /** The world when the Deployment is created, but for it. */
  function BeforeDeployment(w: World, o: Oracle): World { EnvSteps(EnvSteps(w, o.gaps.list), o.gaps.deployment) }

  function WithDeployment(w: World, d: Deployment): World {
    w.(kube := w.kube.(deployments := w.kube.deployments + [d]), ledger := w.ledger.(receivers := w.ledger.receivers + 1))
  }

  function WithService(w: World, v: Service): World {
    w.(kube := w.kube.(services := w.kube.services + [v]), ledger := w.ledger.(services := w.ledger.services + 1))
  }

  /** What the body of such a run leaves, whatever happens in its gaps, for the Deployment `d` and the Service `v`. */
  function Children(w: World, o: Oracle, d: Deployment, v: Service): (World, Result) {
    var w1 := BeforeDeployment(w, o);
    if o.createDeployment.Refused? then (w1, Failure)
    else if o.createDeployment.Lost? then (WithDeployment(w1, d), Failure)
    else
      var w2 := EnvSteps(WithDeployment(w1, d), o.gaps.service);
      (if o.createService.Refused? then w2 else WithService(w2, v), Success)
  }

  lemma ChildrenMade(w: World, s: Source, o: Oracle) returns (d: Deployment, v: Service)
    requires NoReceiver(w, s, o)
    ensures IsNewReceiver(d, s, SinkFor(s, o), o) && IsNewService(v, s, o)
    ensures var b := Body(w, s, o); (b.world, b.result) == Children(w, o, d, v) && b.source == s.(status := b.source.status)
  {
    hide SettleStatus, HasReceiver, EnvSteps, Available;
    var s1 := s.(status := SettleStatus(s.spec, s.status, o).status);
    SettlesIff(s.spec, s.status, o);
    SettledURI(s, o);
    SameIdentity(EnvSteps(w, o.gaps.list).kube.deployments, [], s, s1);
    d := Owned(MakeReceiveAdapter(s1, o.image), s1, o.deploymentSuffix);
    v := OwnedService(MakePublicService(s1), s1, o.serviceSuffix);
  }

  /** Nothing happens in the gaps before and inside the two writes. */
  predicate QuietWrites(o: Oracle) {
    o.gaps.status == [] && o.gaps.statusCall == [] && o.gaps.update == [] && o.gaps.updateCall == []
  }

  /** The writes change the store only. */
  lemma WritesKeepRest(w: World, original: Source, s: Source, result: Result, o: Oracle)
    requires QuietWrites(o)
    ensures var r := WriteBack(w, original, s, result, o); r.0 == w.(store := r.0.store)
  {
    Resting(w);
    if w.store.cache.Some? { Resting(w.(store := w.store.(cache := Some(w.store.cache.value.(status := s.status))))); }
    var a := WriteStatus(w, original, s, o).0;
    Resting(a);
    if a.store.cache.Some? { Resting(a.(store := a.store.(cache := Some(a.store.cache.value.(finalizers := s.finalizers))))); }
  }

  /**
   A run that finds no receiver: exactly one new Deployment, unless its creation is refused; and, if that was
   answered, exactly one new Service, unless its creation is refused. An unanswered Deployment is an error. What
   else has changed when the writes begin is what others did in the gaps.
   */
  lemma RunMakesChildren(w: World, s: Source, o: Oracle) returns (d: Deployment, v: Service)
    requires NoReceiver(w, s, o) && QuietWrites(o)
    ensures IsNewReceiver(d, s, SinkFor(s, o), o) && IsNewService(v, s, o)
    ensures var w' := Reconcile(w, o).0; var c := Children(w, o, d, v);
      && w'.kube == c.0.kube && w'.gitlab == c.0.gitlab
      && w'.ledger.receivers == c.0.ledger.receivers && w'.ledger.services == c.0.ledger.services
      && (!o.createDeployment.Done? ==> Reconcile(w, o).1.Failure?)
  {
    hide Body, WriteBack, Children;
    d, v := ChildrenMade(w, s, o);
    var b := Body(w, s, o);
    WritesKeepRest(b.world, s, b.source, b.result, o);
    WriteBackKeeps(b.world, s, b.source, b.result, o);
    ChildrenResult(w, o, d, v);
  }

  lemma ChildrenResult(w: World, o: Oracle, d: Deployment, v: Service)
    ensures !Children(w, o, d, v).1.Panicked? && (!o.createDeployment.Done? <==> Children(w, o, d, v).1.Failure?)
  {
  }

  /** The plainest case: when nobody else acts and both calls are answered, one Deployment and one Service more. */
  lemma FirstRunMakesBoth(w: World, s: Source, o: Oracle) returns (d: Deployment, v: Service)
    requires NoReceiver(w, s, o) && Undisturbed(o) && o.createDeployment.Done? && o.createService.Done?
    ensures IsNewReceiver(d, s, SinkFor(s, o), o) && IsNewService(v, s, o)
    ensures Reconcile(w, o).0.kube == Kube(w.kube.deployments + [d], w.kube.services + [v])
    ensures HasReceiver(Reconcile(w, o).0.kube.deployments, s) && ChooseService(Reconcile(w, o).0.kube.services, s) == Some(v)
  {
    hide Reconcile;
    d, v := RunMakesChildren(w, s, o);
    Resting(w);
    Resting(WithDeployment(w, d));
    FirstRunFinds(w, s, o, d, v);
  }

  lemma FirstRunFinds(w: World, s: Source, o: Oracle, d: Deployment, v: Service)
    requires IsNewReceiver(d, s, SinkFor(s, o), o) && IsNewService(v, s, o)
    ensures HasReceiver(w.kube.deployments + [d], s) && ChooseService(w.kube.services + [v], s) == Some(v)
  {
    var ds, vs := w.kube.deployments + [d], w.kube.services + [v];
    assert ds[|ds| - 1] == d && d in ds && IsReceiverOf(d, s);
    assert v.name == s.name + ("-service" + o.serviceSuffix);
    assert vs[|vs| - 1] == v && Candidate(v, s);
  }

  // ---------- The hook ----------

  /** The hook that the source asks for, on the Service `v`. */
  ghost predicate IsAskedFor(h: Hook, s: Source, v: Service, o: Oracle) {
    && AddressOf(s.spec.projectURL) == Ok(h.address)
    && v.ingress != [] && v.nodePorts != []
    && h.config.url == (if s.spec.secure then "https://" else "http://") + (v.ingress[0] + ":" + Itoa(v.nodePorts[0]))
    && h.config.sslVerification == s.spec.secure
    && o.secretToken.Found? && h.config.token == o.secretToken.value
    && Asks(h.config.events, s.spec.eventTypes)
  }

  /** Each flag is set exactly when its type is listed. */
  ghost predicate Asks(e: EventFlags, types: seq<string>) {
    && (e.pushEvents <==> "push_events" in types) && (e.issuesEvents <==> "issues_events" in types)
    && (e.confidentialIssuesEvents <==> "confidential_issues_events" in types)
    && (e.mergeRequestsEvents <==> "merge_requests_events" in types) && (e.tagPushEvents <==> "tag_push_events" in types)
    && (e.pipelineEvents <==> "pipeline_events" in types) && (e.wikiPageEvents <==> "wiki_page_events" in types)
    && (e.jobEvents <==> "job_events" in types) && (e.noteEvents <==> "note_events" in types)
  }

  /** The Services that the run lists. */
  function ListedServices(w: World, o: Oracle): seq<Service> { EnvSteps(EnvSteps(w, o.gaps.list), o.gaps.services).kube.services }

  /** On the way to `w'` no hook came with an ID that had been issued. */
  ghost predicate HooksPass(w: World, w': World) {
    && ValidGitLab(w'.gitlab) && w.gitlab.issued <= w'.gitlab.issued
    && forall h :: h in w'.gitlab.hooks && h.id in w.gitlab.issued ==> h in w.gitlab.hooks
  }

  lemma {:induction false} EnvHooksPass(w: World, es: seq<Event>)
    requires ValidGitLab(w.gitlab)
    ensures HooksPass(w, EnvSteps(w, es))
    decreases |es|
  {
    if es != [] {
      GitLabEventFacts(w.gitlab, es[0]);
      EnvHooksPass(EnvStep(w, es[0]), es[1..]);
    }
  }

  lemma StatusHooksPass(w: World, original: Source, s: Source, o: Oracle)
    requires ValidGitLab(w.gitlab)
    ensures HooksPass(w, WriteStatus(w, original, s, o).0)
  {
    hide ValidGitLab, ApiUpdateStatus;
    EnvHooksPass(w, o.gaps.status);
    var w1 := EnvSteps(w, o.gaps.status);
    if w1.store.cache.Some? {
      EnvHooksPass(w1.(store := w1.store.(cache := Some(w1.store.cache.value.(status := s.status)))), o.gaps.statusCall);
    }
  }

  lemma FinalizersHooksPass(w: World, original: Source, s: Source, o: Oracle)
    requires ValidGitLab(w.gitlab)
    ensures HooksPass(w, WriteFinalizers(w, original, s, o).0)
  {
    hide ValidGitLab, ApiUpdate;
    EnvHooksPass(w, o.gaps.update);
    var w1 := EnvSteps(w, o.gaps.update);
    if w1.store.cache.Some? {
      EnvHooksPass(w1.(store := w1.store.(cache := Some(w1.store.cache.value.(finalizers := s.finalizers)))), o.gaps.updateCall);
    }
  }

  lemma WritesHooksPass(w: World, original: Source, s: Source, result: Result, o: Oracle)
    requires ValidGitLab(w.gitlab)
    ensures HooksPass(w, WriteBack(w, original, s, result, o).0)
  {
    hide WriteStatus, WriteFinalizers, ValidGitLab;
    StatusHooksPass(w, original, s, o);
    var a := WriteStatus(w, original, s, o).0;
    FinalizersHooksPass(a, original, s, o);
  }

  /** The hook of a successful or unanswered call is new, and as asked for. */
  lemma CreateAsks(w: World, s: Source, v: Service, o: Oracle) returns (h: Hook)
    requires ValidGitLab(w.gitlab) && v.ingress != [] && v.nodePorts != [] && o.secretToken.Found?
    requires var b := CreateWebhook(w, s, v.ingress[0] + ":" + Itoa(v.nodePorts[0]), o); b.world.ledger.created != w.ledger.created
    ensures IsAskedFor(h, s, v, o) && h.id == o.hookId && h.id !in w.gitlab.issued
    ensures var w' := CreateWebhook(w, s, v.ingress[0] + ":" + Itoa(v.nodePorts[0]), o).world;
      ValidGitLab(w'.gitlab) && w'.gitlab.hooks == w.gitlab.hooks + [h] && h.id in w'.gitlab.issued
  {
    hide AddressOf, Itoa;
    var domain := v.ingress[0] + ":" + Itoa(v.nodePorts[0]);
    var a := AddressOf(s.spec.projectURL).value;
    h := Hook(o.hookId, a, HookConfigOf(s, domain, o));
    AddFacts(w.gitlab, a, o.hookId, HookConfigOf(s, domain, o), o.addHook);
  }

  /** The source, the Service it listens on, and the hook that the body of the run registered. */
  lemma RegisterAsks(w: World, s: Source, o: Oracle) returns (i: int, h: Hook)
    requires ValidGitLab(w.gitlab) && o.secretToken.Found?
    requires RegisterHook(w, s, o).world.ledger.created != w.ledger.created
    ensures var vs := EnvSteps(w, o.gaps.services).kube.services; LastCandidate(vs, s, i) && IsAskedFor(h, s, vs[i], o)
    ensures var w' := RegisterHook(w, s, o).world;
      h.id == o.hookId && h in w'.gitlab.hooks && h.id in w'.gitlab.issued && ValidGitLab(w'.gitlab)
  {
    hide EnvSteps, CreateWebhook, ChooseService, F.Add, Itoa, ValidGitLab, AddressOf, Asks;
    EnvStepsKeep(w, o.gaps.services);
    var s1 := s.(finalizers := F.Add(s.finalizers));
    var w1 := EnvSteps(w, o.gaps.services);
    EnvHooksPass(w, o.gaps.services);
    EnvStepsKeep(w1, o.gaps.hook);
    EnvHooksPass(w1, o.gaps.hook);
    var vs := w1.kube.services;
    i := ChosenIsLast(vs, s1);
    h := CreateAsks(EnvSteps(w1, o.gaps.hook), s1, vs[i], o);
    assert LastCandidate(vs, s, i);
    var w' := RegisterHook(w, s, o).world;
    assert w'.gitlab.hooks[|w'.gitlab.hooks| - 1] == h;
  }

  lemma BodyAsks(w: World, s: Source, o: Oracle) returns (i: int, h: Hook)
    requires ValidGitLab(w.gitlab) && Body(w, s, o).world.ledger.created != w.ledger.created
    ensures !s.deleting && LastCandidate(ListedServices(w, o), s, i) && IsAskedFor(h, s, ListedServices(w, o)[i], o)
    ensures var w' := Body(w, s, o).world;
      h.id == o.hookId && h in w'.gitlab.hooks && h.id in w'.gitlab.issued && ValidGitLab(w'.gitlab)
  {
    hide SettleStatus, MakeChildren, RegisterHook, Finalize, HasReceiver, EnvSteps, ValidGitLab, Asks, AddressOf, Itoa;
    FinalizeBooks(w, s, o);
    SettlesIff(s.spec, s.status, o);
    var s1 := s.(status := SettleStatus(s.spec, s.status, o).status);
    var w1 := EnvSteps(w, o.gaps.list);
    EnvStepsKeep(w, o.gaps.list);
    EnvHooksPass(w, o.gaps.list);
    ChildrenBooks(w1, s1, o);
    i, h := RegisterAsks(w1, s1, o);
    SameAsked(ListedServices(w, o), s, s1, i, h, o);
  }

  lemma SameAsked(vs: seq<Service>, s: Source, s1: Source, i: int, h: Hook, o: Oracle)
    requires s1 == s.(status := s1.status) && LastCandidate(vs, s1, i) && IsAskedFor(h, s1, vs[i], o)
    ensures LastCandidate(vs, s, i) && IsAskedFor(h, s, vs[i], o)
  {
    hide Asks, AddressOf, Itoa;
  }

  /**
   Whatever happens in its gaps, a run that registers a hook registers the one the source asks for, on the last
   qualifying Service that it lists: every hook that is there after the run under an ID booked in it has the
   source's project, the scheme and the verification that `secure` says, the address and node port of that
   Service, the secret found, and exactly the listed event types.
   */
  lemma RegisteredHook(w: World, o: Oracle, h: Hook) returns (i: int)
    requires ValidGitLab(w.gitlab)
    requires var w' := Reconcile(w, o).0; h in w'.gitlab.hooks && h.id in w'.ledger.created && h.id !in w.ledger.created
    ensures w.store.cache.Some? && !w.store.cache.value.deleting
    ensures LastCandidate(ListedServices(w, o), w.store.cache.value, i)
    ensures IsAskedFor(h, w.store.cache.value, ListedServices(w, o)[i], o)
  {
    hide Body, WriteBack, ValidGitLab, LastCandidate, IsAskedFor, ListedServices;
    RunBooks(w, o);
    var s := w.store.cache.value;
    var b := Body(w, s, o);
    WriteBackKeeps(b.world, s, b.source, b.result, o);
    var asked;
    i, asked := BodyAsks(w, s, o);
    WritesHooksPass(b.world, s, b.source, b.result, o);
    OneHookPerId(b.world, asked, h);
  }

  lemma OneHookPerId(w: World, a: Hook, b: Hook)
    requires ValidGitLab(w.gitlab) && a in w.gitlab.hooks && a.id == b.id
    ensures b in w.gitlab.hooks ==> a == b
  {
  }

  // ---------- How the body of a live run ends ----------

  /** A secret selector is missing when it is needed. */
  predicate SelectorMissing(spec: Spec, o: Oracle) {
    spec.accessToken.None? || (o.accessToken.Found? && spec.secretToken.None?)
  }

  /** The run gets to the hook: secrets and sink are found, and so is the receiver. */
  ghost predicate ToHook(w: World, s: Source, o: Oracle) {
    Available(s.spec, o) && !o.listDeploymentsFails && HasReceiver(EnvSteps(w, o.gaps.list).kube.deployments, s)
  }

  /** The world in which the Services are listed. */
  function AtServices(w: World, o: Oracle): World { EnvSteps(EnvSteps(w, o.gaps.list), o.gaps.services) }

  ghost predicate BodyPanics(w: World, s: Source, o: Oracle) {
    || SelectorMissing(s.spec, o)
    || (ToHook(w, s, o) && !o.listServicesFails
        && (!Served(AtServices(w, o), s) || (KeyOf(s) == "" && AddressOf(s.spec.projectURL).Panic?)))
  }

  ghost predicate BodySucceeds(w: World, s: Source, o: Oracle) {
    && Available(s.spec, o) && !o.listDeploymentsFails
    && (if HasReceiver(EnvSteps(w, o.gaps.list).kube.deployments, s)
        then
          && !o.listServicesFails && Served(AtServices(w, o), s)
          && (KeyOf(s) == "" ==>
                && AddressOf(s.spec.projectURL).Ok? && o.addHook.Done? && IsInt64(o.hookId)
                && o.hookId !in EnvSteps(AtServices(w, o), o.gaps.hook).gitlab.issued)
        else o.createDeployment.Done?)
  }

  lemma SettlePanicsIff(spec: Spec, st: Status, o: Oracle)
    ensures SettleStatus(spec, st, o).result.Panicked? <==> SelectorMissing(spec, o)
    ensures SettleStatus(spec, st, o).result.Success? <==> Available(spec, o)
  {
    hide Apply;
  }

  lemma CreateOutcome(w: World, s: Source, domain: string, o: Oracle)
    ensures var b := CreateWebhook(w, s, domain, o);
      && (b.result.Panicked? <==> AddressOf(s.spec.projectURL).Panic?)
      && (b.result.Success? <==> AddressOf(s.spec.projectURL).Ok? && o.addHook.Done? && IsInt64(o.hookId) && o.hookId !in w.gitlab.issued)
      && b.source == if b.result.Success? then s.(status := s.status.(webhookIDKey := Itoa(o.hookId))) else s
  {
    hide AddressOf, HookConfigOf, Itoa;
  }

  lemma RegisterOutcome(w: World, s: Source, o: Oracle)
    ensures var b := RegisterHook(w, s, o); var w1 := EnvSteps(w, o.gaps.services);
      && (b.result.Panicked? <==>
            !o.listServicesFails && (!Served(w1, s) || (KeyOf(s) == "" && AddressOf(s.spec.projectURL).Panic?)))
      && (b.result.Success? <==>
            && !o.listServicesFails && Served(w1, s)
            && (KeyOf(s) == "" ==> AddressOf(s.spec.projectURL).Ok? && o.addHook.Done? && IsInt64(o.hookId)
                                   && o.hookId !in EnvSteps(w1, o.gaps.hook).gitlab.issued))
      && b.source.finalizers == F.Add(s.finalizers)
      && KeyOf(b.source) == if b.result.Success? && KeyOf(s) == "" then Itoa(o.hookId) else KeyOf(s)
  {
    hide EnvSteps, CreateWebhook, ChooseService, F.Add, Itoa, AddressOf;
    var w1 := EnvSteps(w, o.gaps.services);
    var s1 := s.(finalizers := F.Add(s.finalizers));
    SameChoice(w1.kube.services, s, s1);
    var svc := ChooseService(w1.kube.services, s1);
    if svc.Some? && svc.value.ingress != [] && svc.value.nodePorts != [] {
      CreateOutcome(EnvSteps(w1, o.gaps.hook), s1, svc.value.ingress[0] + ":" + Itoa(svc.value.nodePorts[0]), o);
    }
  }

  /**
   How the body of a live run ends, and what it leaves in the working copy: it panics exactly when a selector is
   missing, when no qualifying Service has an address, or when the URL has no path; it succeeds exactly when every
   call on its way is answered. Our finalizer is asked for as soon as the receiver is found, and the ID is stored
   exactly when the registration is answered.
   */
  lemma LiveOutcome(w: World, s: Source, o: Oracle)
    requires !s.deleting
    ensures var b := Body(w, s, o);
      && (b.result.Panicked? <==> BodyPanics(w, s, o)) && (b.result.Success? <==> BodySucceeds(w, s, o))
      && b.source.finalizers == (if ToHook(w, s, o) then F.Add(s.finalizers) else s.finalizers)
      && KeyOf(b.source) == if ToHook(w, s, o) && BodySucceeds(w, s, o) && KeyOf(s) == "" then Itoa(o.hookId) else KeyOf(s)
  {
    hide SettleStatus, MakeChildren, RegisterHook, HasReceiver, EnvSteps, F.Add, Itoa, AddressOf, Served, Available, SelectorMissing;
    var s1 := s.(status := SettleStatus(s.spec, s.status, o).status);
    var w1 := EnvSteps(w, o.gaps.list);
    SettlePanicsIff(s.spec, s.status, o);
    SettleKeepsKey(s.spec, s.status, o);
    SameIdentity(w1.kube.deployments, [], s, s1);
    ServedSame(AtServices(w, o), s, s1);
    ChildrenOutcome(w1, s1, o);
    RegisterOutcome(w1, s1, o);
    NotBothEnds(w, s, o);
  }

  lemma NotBothEnds(w: World, s: Source, o: Oracle)
    ensures SelectorMissing(s.spec, o) ==> !Available(s.spec, o)
  {
  }

  lemma ChildrenOutcome(w: World, s: Source, o: Oracle)
    ensures var b := MakeChildren(w, s, o); b.source == s && !b.result.Panicked? && (b.result.Success? <==> o.createDeployment.Done?)
  {
  }

  /** So the whole run: it takes the process down exactly when its body does, and returns nil only if the body succeeds. */
  lemma LiveRunEnds(w: World, s: Source, o: Oracle)
    requires !o.listerFails && w.store.cache == Some(s) && !s.deleting
    ensures Reconcile(w, o).1.Panicked? <==> BodyPanics(w, s, o)
    ensures Reconcile(w, o).1.Success? ==> BodySucceeds(w, s, o)
  {
    hide Body, WriteStatus, WriteFinalizers, BodyPanics, BodySucceeds;
    LiveOutcome(w, s, o);
  }

  // ---------- The writes ----------

  /**
   What needs no call: a part of the working copy that is as it was read is not written, whatever became of the
   cached object; nor is one that the cached object has by then.
   */
  lemma NothingToSend(w: World, s: Source, o: Oracle)
    requires !o.listerFails && w.store.cache == Some(s) && !Body(w, s, o).result.Panicked?
    requires var b := Body(w, s, o); var w1 := EnvSteps(b.world, o.gaps.status); var w2 := EnvSteps(w1, o.gaps.update);
      && (b.source.status == s.status || (w1.store.cache.Some? && w1.store.cache.value.status == b.source.status))
      && (b.source.finalizers == s.finalizers || (w2.store.cache.Some? && w2.store.cache.value.finalizers == b.source.finalizers))
    ensures RunOnce(w, o) == (EnvSteps(EnvSteps(Body(w, s, o).world, o.gaps.status), o.gaps.update), Body(w, s, o).result)
  {
    hide Body, EnvSteps;
  }

  /** But a part that has changed is not dropped: if the cached object has gone meanwhile, the run returns an error. */
  lemma GoneMeanwhileFails(w: World, s: Source, o: Oracle)
    requires !o.listerFails && w.store.cache == Some(s) && !Body(w, s, o).result.Panicked?
    requires var b := Body(w, s, o); var w1 := EnvSteps(b.world, o.gaps.status); var w2 := EnvSteps(w1, o.gaps.update);
      || (b.source.status != s.status && w1.store.cache.None?)
      || (b.source.status == s.status && b.source.finalizers != s.finalizers && w2.store.cache.None?)
    ensures Reconcile(w, o).1.Failure?
  {
    hide Body, EnvSteps;
  }

  /** A refused status write leaves the finalizers alone, in the cached object and on the server. */
  lemma RefusedStatusStops(w: World, s: Source, o: Oracle)
    requires !o.listerFails && w.store.cache == Some(s) && !Body(w, s, o).result.Panicked? && Undisturbed(o)
    requires Body(w, s, o).world.store == w.store && Body(w, s, o).source.status != s.status && o.updateStatus.Refused?
    ensures var r := Reconcile(w, o);
      && r.1.Failure? && r.0.store.log == w.store.log
      && r.0.store.cache == Some(s.(status := Body(w, s, o).source.status))
  {
    hide Body;
    var b := Body(w, s, o);
    Resting(b.world);
    Resting(b.world.(store := b.world.store.(cache := Some(s.(status := b.source.status)))));
  }

  /** A source that is gone is left alone by any number of runs, and each of them returns nil. */
  lemma {:induction false} GoneIsQuiet(w: World, os: seq<Oracle>)
    requires w.store.cache.None? && forall o :: o in os ==> !o.listerFails
    ensures Runs(w, os) == w && forall o :: o in os ==> Reconcile(w, o) == (w, Success)
    decreases |os|
  {
    if os != [] {
      assert Reconcile(w, os[0]) == (w, Success);
      GoneIsQuiet(w, os[1..]);
      assert os == [os[0]] + os[1..];
    }
  }
}
