/**
 The reconciler as a protocol over stores that can disagree: the API server's copy of one source,
 the informer cache, the live Deployments and Services, and GitLab's hooks.

 A run of `Reconcile` is a function of the world and of an `Oracle`, which fixes the outcome of
 every external call and what the environment does in the gap before each of them. Every theorem
 quantifies over all worlds, oracles and interleavings.
 */
module Protocol {
  import opened Outcomes
  import opened Numerals
  import opened Statuses
  import opened Sources
  import opened ProjectUrls
  import opened Hooks
  import opened Resources
  import F = Finalizers

  /**
   `log[v]` is what the API server stored at resource version `v`, `None` while the source does not
   exist; the last entry is current. `seen` is the version last delivered to the informer, and
   `cache` the informer's object, which the reconciler overwrites in place.
   */
  datatype Store = Store(log: seq<Option<Source>>, seen: nat, cache: Option<Source>)

  datatype Kube = Kube(deployments: seq<Deployment>, services: seq<Service>)

  /** Bookkeeping that no code reads: hook IDs this controller created, error returns, lost replies, and creations. */
  datatype Ledger = Ledger(created: set<int>, errors: nat, lostReplies: nat, receivers: nat, services: nat)

  datatype World = World(
    namespace: string,
    name: string,
    store: Store,
    kube: Kube,
    gitlab: GitLab,
    uids: set<nat>,
    ledger: Ledger)

  function Server(st: Store): Option<Source> {
    if st.log == [] then None else st.log[|st.log| - 1]
  }

  /** Stores a new version. */
  function Commit(st: Store, s: Source): Store {
    st.(log := st.log + [Some(s.(rv := |st.log|))])
  }

  function Vanish(st: Store): Store {
    st.(log := st.log + [None])
  }

  // ---------- The environment ----------

  datatype Event =
    | CreateSource(uid: nat, finalizers: seq<string>, spec: Spec)
    | EditSpec(spec: Spec)
    | EditFinalizers(finalizers: seq<string>)
    | DeleteSource
    | Deliver(version: nat)
    | AddDeployment(deployment: Deployment)
    | RemoveDeployment(index: nat)
    | ServicesBecome(services: seq<Service>)
    | OtherHook(hook: Hook)
    | RemoveHook(id: int)

  /**
   Other clients neither add nor remove the controller's finalizer; the API server forbids new finalizers on a
   deleted object.
   */
  predicate FinalizerEditAllowed(o: Source, finalizers: seq<string>) {
    && (F.OURS in finalizers <==> F.OURS in o.finalizers)
    && (o.deleting ==> forall f :: f in finalizers ==> f in o.finalizers)
  }

  function StoreEvent(w: World, e: Event): Store {
    var st := w.store;
    match e
    case CreateSource(uid, finalizers, spec) =>
      if Server(st).None? && F.OURS !in finalizers && uid !in w.uids && (forall d :: d in w.kube.deployments ==> d.controller != Some(uid))
      then Commit(st, Source(w.namespace, w.name, uid, 0, false, finalizers, spec, EMPTY_STATUS))
      else st
    case EditSpec(spec) =>
      if Server(st).Some? then Commit(st, Server(st).value.(spec := spec)) else st
    case EditFinalizers(finalizers) =>
      if Server(st).None? || !FinalizerEditAllowed(Server(st).value, finalizers) then st
      else if Server(st).value.deleting && finalizers == [] then Vanish(st)
      else Commit(st, Server(st).value.(finalizers := finalizers))
    case DeleteSource =>
      if Server(st).None? then st
      else if Server(st).value.finalizers == [] then Vanish(st)
      else if Server(st).value.deleting then st
      else Commit(st, Server(st).value.(deleting := true))
    case Deliver(v) =>
      if st.seen < v < |st.log| then st.(seen := v, cache := st.log[v]) else st
    case _ => st
  }

  function KubeEvent(w: World, e: Event): Kube {
    match e
    case AddDeployment(d) =>
      if d.controller.Some? && d.controller.value in w.uids then w.kube
      else w.kube.(deployments := w.kube.deployments + [d])
    case RemoveDeployment(i) =>
      if i < |w.kube.deployments| then w.kube.(deployments := w.kube.deployments[..i] + w.kube.deployments[i + 1..]) else w.kube
    case ServicesBecome(services) => w.kube.(services := services)
    case _ => w.kube
  }

  function RemoveEverywhere(hooks: seq<Hook>, id: int): seq<Hook> {
    if hooks == [] then []
    else if hooks[0].id == id then RemoveEverywhere(hooks[1..], id)
    else [hooks[0]] + RemoveEverywhere(hooks[1..], id)
  }

  function GitLabEvent(g: GitLab, e: Event): GitLab {
    match e
    case OtherHook(h) => AddProjectHook(g, h.address, h.id, h.config, Done).0
    case RemoveHook(id) => g.(hooks := RemoveEverywhere(g.hooks, id))
    case _ => g
  }

  function EnvStep(w: World, e: Event): World {
    w.(store := StoreEvent(w, e),
       kube := KubeEvent(w, e),
       gitlab := GitLabEvent(w.gitlab, e),
       uids := if e.CreateSource? && StoreEvent(w, e) != w.store then w.uids + {e.uid} else w.uids)
  }

  function EnvSteps(w: World, es: seq<Event>): World
    decreases |es|
  {
    if es == [] then w else EnvSteps(EnvStep(w, es[0]), es[1..])
  }

  // ---------- One run ----------

  datatype Fetch = Found(value: string) | Missing(error: string)

  /** What the environment does before each external call of a run. */
  datatype Gaps = Gaps(
    list: seq<Event>,
    deployment: seq<Event>,
    service: seq<Event>,
    services: seq<Event>,
    hook: seq<Event>,
    status: seq<Event>,
    statusCall: seq<Event>,
    update: seq<Event>,
    updateCall: seq<Event>)

  datatype Oracle = Oracle(
    gaps: Gaps,
    now: int,
    image: string,
    listerFails: bool,
    accessToken: Fetch,
    secretToken: Fetch,
    sink: Fetch,
    listDeploymentsFails: bool,
    createDeployment: Reply,
    deploymentSuffix: string,
    createService: Reply,
    serviceSuffix: string,
    listServicesFails: bool,
    hookId: int,
    addHook: Reply,
    listHooksFails: bool,
    deleteHook: Reply,
    updateStatus: Reply,
    update: Reply)

  datatype Result = Success | Failure | Panicked

  /** The world, the working copy and the result after some part of a run. */
  datatype Step = Step(world: World, source: Source, result: Result)

  datatype Settled = Settled(status: Status, result: Result)

  /** Condition updates for the two secrets. */
  function SettleSecrets(spec: Spec, st: Status, o: Oracle): Settled {
    var s0 := Apply(st, InitializeConditions, o.now);
    if spec.accessToken.None? then Settled(s0, Panicked)
    else if o.accessToken.Missing? then Settled(Apply(s0, MarkNoSecrets("AccessTokenNotFound", o.accessToken.error), o.now), Failure)
    else if spec.secretToken.None? then Settled(s0, Panicked)
    else if o.secretToken.Missing? then Settled(Apply(s0, MarkNoSecrets("SecretTokenNotFound", o.secretToken.error), o.now), Failure)
    else Settled(Apply(s0, MarkSecrets, o.now), Success)
  }

  /** What formatting a nil error with `%s` yields. */
  const NIL_ERROR: string := "%!s(<nil>)"

  /** Condition updates up to and including the sink. */
  function SettleStatus(spec: Spec, st: Status, o: Oracle): Settled {
    var a := SettleSecrets(spec, st, o);
    if a.result != Success then a
    else if spec.sink.Some? then
      if o.sink.Missing? then Settled(Apply(a.status, MarkNoSink("NotFound", o.sink.error), o.now), Failure)
      else Settled(Apply(a.status, MarkSink(o.sink.value), o.now), Success)
    else if spec.uri.Some? then Settled(Apply(a.status, MarkSink(spec.uri.value), o.now), Success)
    else Settled(Apply(a.status, MarkNoSink("NotFound", NIL_ERROR), o.now), Success)
  }

  function AddReceiver(w: World, s: Source, o: Oracle): World {
    if o.createDeployment.Refused? then w else
      w.(kube := w.kube.(deployments := w.kube.deployments + [Owned(MakeReceiveAdapter(s, o.image), s, o.deploymentSuffix)]),
         ledger := w.ledger.(receivers := w.ledger.receivers + 1))
  }

  function AddService(w: World, s: Source, o: Oracle): World {
    if o.createService.Refused? then w else
      w.(kube := w.kube.(services := w.kube.services + [OwnedService(MakePublicService(s), s, o.serviceSuffix)]),
         ledger := w.ledger.(services := w.ledger.services + 1))
  }

  /** The Deployment and then the Service; the result of creating the Service is dropped. */
  function MakeChildren(w: World, s: Source, o: Oracle): Step {
    var w1 := AddReceiver(EnvSteps(w, o.gaps.deployment), s, o);
    if !o.createDeployment.Done? then Step(w1, s, Failure)
    else Step(AddService(EnvSteps(w1, o.gaps.service), s, o), s, Success)
  }

  function HookConfigOf(s: Source, domain: string, o: Oracle): HookConfig {
    HookConfig((if s.spec.secure then "https://" else "http://") + domain,
      if o.secretToken.Found? then o.secretToken.value else "", RequestedEvents(s.spec.eventTypes), s.spec.secure)
  }

  /** Books a hook that GitLab has added, and whether the caller was told. */
  function HookCreated(w: World, g: GitLab, id: int, lost: bool): World {
    if g == w.gitlab then w else
      w.(gitlab := g, ledger := w.ledger.(created := w.ledger.created + {id},
         lostReplies := w.ledger.lostReplies + if lost then 1 else 0))
  }

  /** `createWebhook` for a source without a stored ID. */
  function CreateWebhook(w: World, s: Source, domain: string, o: Oracle): Step {
    match AddressOf(s.spec.projectURL)
    case Error => Step(w, s, Failure)
    case Panic => Step(w, s, Panicked)
    case Ok(a) =>
      var c := Create(w.gitlab, a, o.hookId, HookConfigOf(s, domain, o), o.addHook);
      var w1 := HookCreated(w, c.0, o.hookId, c.1.None?);
      if c.1.None? then Step(w1, s, Failure)
      else Step(w1, s.(status := s.status.(webhookIDKey := c.1.value)), Success)
  }

  /** From `addFinalizer` to the end of `reconcile`; a missing ingress or port is an index panic. */
  function RegisterHook(w: World, s: Source, o: Oracle): Step {
    var s1 := s.(finalizers := F.Add(s.finalizers));
    var w1 := EnvSteps(w, o.gaps.services);
    if o.listServicesFails then Step(w1, s1, Failure)
    else
      var svc := ChooseService(w1.kube.services, s1);
      if svc.None? || svc.value.ingress == [] || svc.value.nodePorts == [] then Step(w1, s1, Panicked)
      else if s1.status.webhookIDKey != "" then Step(w1, s1, Success)
      else CreateWebhook(EnvSteps(w1, o.gaps.hook), s1, svc.value.ingress[0] + ":" + Itoa(svc.value.nodePorts[0]), o)
  }

  /** `reconcile`, on the working copy. */
  function ReconcileLive(w: World, s: Source, o: Oracle): Step {
    var a := SettleStatus(s.spec, s.status, o);
    var s1 := s.(status := a.status);
    if a.result != Success then Step(w, s1, a.result)
    else
      var w1 := EnvSteps(w, o.gaps.list);
      if o.listDeploymentsFails then Step(w1, s1, Failure)
      else if !HasReceiver(w1.kube.deployments, s1) then MakeChildren(w1, s1, o)
      else RegisterHook(w1, s1, o)
  }

  /** `deleteWebhook` and what `finalize` does with its result. */
  function DeleteWebhook(w: World, s: Source, o: Oracle): Step {
    match AddressOf(s.spec.projectURL)
    case Error => Step(w, s, Failure)
    case Panic => Step(w, s, Panicked)
    case Ok(a) =>
      var d := Delete(w.gitlab, a, s.status.webhookIDKey, o.listHooksFails, o.deleteHook);
      var w1 := w.(gitlab := d.0);
      if d.1 then Step(w1, s.(status := s.status.(webhookIDKey := "")), Success)
      else Step(w1, s, Failure)
  }

  /** `finalize`, on the working copy. */
  function Finalize(w: World, s: Source, o: Oracle): Step {
    var s1 := s.(finalizers := F.Remove(s.finalizers));
    if s1.status.webhookIDKey == "" then Step(w, s1, Success)
    else if s1.spec.accessToken.None? then Step(w, s1, Panicked)
    else if o.accessToken.Missing? then
      Step(w, s1.(status := Apply(s1.status, MarkNoSecrets("AccessTokenNotFound", o.accessToken.error), o.now)), Failure)
    else DeleteWebhook(EnvSteps(w, o.gaps.hook), s1, o)
  }

  // ---------- Write-back ----------

  /** PUT on the status subresource: optimistic on the version; a write that changes nothing keeps the version. */
  function ApiUpdateStatus(st: Store, p: Source, reply: Reply): (Store, bool) {
    match Server(st)
    case None => (st, false)
    case Some(cur) =>
      if reply.Refused? || p.rv != cur.rv then (st, false)
      else if cur.status == p.status then (st, reply.Done?)
      else (Commit(st, cur.(status := p.status)), reply.Done?)
  }

  /**
   PUT on the main resource: the status part is ignored; removing the last finalizer of a deleted object
   removes it.
   */
  function ApiUpdate(st: Store, p: Source, reply: Reply): (Store, bool) {
    match Server(st)
    case None => (st, false)
    case Some(cur) =>
      if reply.Refused? || p.rv != cur.rv then (st, false)
      else if cur.deleting && (exists f :: f in p.finalizers && f !in cur.finalizers) then (st, false)
      else if cur.deleting && p.finalizers == [] then (Vanish(st), reply.Done?)
      else if cur.finalizers == p.finalizers && cur.spec == p.spec then (st, reply.Done?)
      else (Commit(st, cur.(finalizers := p.finalizers, spec := p.spec)), reply.Done?)
  }

  /** `updateStatus`: the cached object is overwritten before the call. */
  function UpdateStatus(w: World, s: Source, o: Oracle): (World, bool) {
    match w.store.cache
    case None => (w, false)
    case Some(p) =>
      if p.status == s.status then (w, true)
      else
        var p1 := p.(status := s.status);
        var w1 := EnvSteps(w.(store := w.store.(cache := Some(p1))), o.gaps.statusCall);
        var r := ApiUpdateStatus(w1.store, p1, o.updateStatus);
        (w1.(store := r.0), r.1)
  }

  /** `update`. */
  function Update(w: World, s: Source, o: Oracle): (World, bool) {
    match w.store.cache
    case None => (w, false)
    case Some(p) =>
      if p.finalizers == s.finalizers then (w, true)
      else
        var p1 := p.(finalizers := s.finalizers);
        var w1 := EnvSteps(w.(store := w.store.(cache := Some(p1))), o.gaps.updateCall);
        var r := ApiUpdate(w1.store, p1, o.update);
        (w1.(store := r.0), r.1)
  }

  function WriteStatus(w: World, original: Source, s: Source, o: Oracle): (World, bool) {
    var w1 := EnvSteps(w, o.gaps.status);
    if original.status == s.status then (w1, true) else UpdateStatus(w1, s, o)
  }

  function WriteFinalizers(w: World, original: Source, s: Source, o: Oracle): (World, bool) {
    var w1 := EnvSteps(w, o.gaps.update);
    if original.finalizers == s.finalizers then (w1, true) else Update(w1, s, o)
  }

  /** Status first; its error skips the finalizers. */
  function WriteBack(w: World, original: Source, s: Source, result: Result, o: Oracle): (World, Result) {
    var a := WriteStatus(w, original, s, o);
    if !a.1 then (a.0, Failure)
    else
      var b := WriteFinalizers(a.0, original, s, o);
      (b.0, if b.1 then result else Failure)
  }

  /** A restarted controller lists the current object. */
  function Restarted(w: World): World
  {
    if w.store.log == [] then w
    else w.(store := w.store.(seen := |w.store.log| - 1, cache := Server(w.store)))
  }

  function Body(w: World, original: Source, o: Oracle): Step {
    if original.deleting then Finalize(w, original, o) else ReconcileLive(w, original, o)
  }

  /** `Reconcile` without the ledger; a panic takes the process down. */
  function RunOnce(w: World, o: Oracle): (World, Result) {
    if o.listerFails then (w, Failure)
    else if w.store.cache.None? then (w, Success)
    else
      var original := w.store.cache.value;
      var b := Body(w, original, o);
      if b.result.Panicked? then (Restarted(b.world), Panicked)
      else WriteBack(b.world, original, b.source, b.result, o)
  }

  function Charge(w: World, r: Result): World {
    if r.Failure? then w.(ledger := w.ledger.(errors := w.ledger.errors + 1)) else w
  }

  function Reconcile(w: World, o: Oracle): (World, Result) {
    var r := RunOnce(w, o);
    (Charge(r.0, r.1), r.1)
  }

  // ---------- Whole histories ----------

  datatype Action = Environment(event: Event) | Restart | Run(oracle: Oracle)

  function Act(w: World, a: Action): World {
    match a
    case Environment(e) => EnvStep(w, e)
    case Restart => Restarted(w)
    case Run(o) => Reconcile(w, o).0
  }

  function Exec(w: World, actions: seq<Action>): World
    decreases |actions|
  {
    if actions == [] then w else Exec(Act(w, actions[0]), actions[1..])
  }

  lemma ExecConcat(w: World, before: seq<Action>, after: seq<Action>)
    ensures Exec(w, before + after) == Exec(Exec(w, before), after)
    decreases |before|
  {
    if before == [] {
      assert before + after == after;
    } else {
      assert (before + after)[1..] == before[1..] + after;
      ExecConcat(Act(w, before[0]), before[1..], after);
    }
  }

  /** Nothing of this source exists yet; other Deployments, Services and hooks may. */
  predicate Initial(w: World) {
    && w.store == Store([None], 0, None)
    && ValidGitLab(w.gitlab)
    && w.uids == {}
    && w.ledger == Ledger({}, 0, 0, 0, 0)
  }
}
