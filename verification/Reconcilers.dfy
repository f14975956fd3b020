/**
 The reconciler as imperative code over shared objects, method by method as in the source: a deep copy is
 worked on, and the two write-backs write into the object behind the informer's pointer. Every method is
 proved to do to the abstract world what the protocol's function of the same part does.
 */
module Reconcilers {
  import opened Outcomes
  import opened Numerals
  import opened ProjectUrls
  import opened Hooks
  import opened Resources
  import opened Protocol
  import opened StatusObjects
  import opened SourceObjects
  import opened ClusterObjects
  import S = Statuses
  import V = Sources
  import F = Finalizers

  class Reconciler {
    const cluster: Cluster

    constructor (c: Cluster)
      ensures cluster == c
    {
      cluster := c;
    }

    ghost predicate Valid()
      reads cluster.remote
    {
      ValidGitLab(cluster.remote.state)
    }

    /** The object at hand is not the one behind the informer's pointer, nor a part of it. */
    ghost predicate Apart(source: GitLabSource)
      reads cluster
    {
      cluster.cached != null ==>
        cluster.cached.meta != source.meta && cluster.cached.spec != source.spec && cluster.cached.status != source.status
    }

    // ---------- Finalizers ----------

    method AddFinalizer(s: GitLabSource)
      modifies s.meta`finalizers
      ensures s.Value() == old(s.Value()).(finalizers := F.Add(old(s.Value()).finalizers))
    {
      s.meta.finalizers := MakeSlice(F.Add(Slice(s.meta.finalizers)));
    }

    method RemoveFinalizer(s: GitLabSource)
      modifies s.meta`finalizers
      ensures s.Value() == old(s.Value()).(finalizers := F.Remove(old(s.Value()).finalizers))
    {
      s.meta.finalizers := MakeSlice(F.Remove(Slice(s.meta.finalizers)));
    }

    // ---------- The conditions ----------

    method CheckSecrets(spec: GitLabSourceSpec, status: GitLabSourceStatus, o: Oracle) returns (r: Result)
      modifies status`conditions
      ensures Settled(status.Value(), r) == SettleSecrets(spec.Value(), old(status.Value()), o)
    {
      hide S.Apply;
      status.InitializeConditions(o.now);
      if spec.accessToken == null { return Panicked; }
      if o.accessToken.Missing? {
        status.MarkNoSecrets("AccessTokenNotFound", o.accessToken.error, o.now);
        return Failure;
      }
      if spec.secretToken == null { return Panicked; }
      if o.secretToken.Missing? {
        status.MarkNoSecrets("SecretTokenNotFound", o.secretToken.error, o.now);
        return Failure;
      }
      status.MarkSecrets(o.now);
      return Success;
    }

    method CheckSink(spec: GitLabSourceSpec, status: GitLabSourceStatus, o: Oracle) returns (r: Result)
      modifies status`conditions, status`sinkURI
      ensures Settled(status.Value(), r) == SettleStatus(spec.Value(), old(status.Value()), o)
    {
      hide S.Apply, SettleSecrets;
      r := CheckSecrets(spec, status, o);
      if r != Success { return; }
      if spec.sink != null {
        if o.sink.Missing? {
          status.MarkNoSink("NotFound", o.sink.error, o.now);
          return Failure;
        }
        status.MarkSink(o.sink.value, o.now);
      } else if spec.uri != null {
        status.MarkSink(spec.uri.value, o.now);
      } else {
        status.MarkNoSink("NotFound", NIL_ERROR, o.now);
      }
    }

    // ---------- The children ----------

    method CreateChildren(s: V.Source, o: Oracle) returns (r: Result)
      requires Valid()
      modifies cluster, cluster.remote
      ensures Valid() && cluster.Redelivered()
      ensures Step(cluster.Abs(), s, r) == MakeChildren(old(cluster.Abs()), s, o)
    {
      hide EnvSteps, AddReceiver, AddService;
      EnvStepsValid(cluster.Abs(), o.gaps.deployment);
      cluster.Pass(o.gaps.deployment);
      var made := cluster.CreateDeployment(s, o);
      if !made { return Failure; }
      EnvStepsValid(cluster.Abs(), o.gaps.service);
      cluster.Pass(o.gaps.service);
      var ignored := cluster.CreateService(s, o);
      return Success;
    }

    // ---------- The hook ----------

    method FillOptions(spec: V.Spec, domain: string, project: string, o: Oracle) returns (options: ProjectHookOptions)
      ensures fresh(options)
      ensures options.Config() == HookConfig((if spec.secure then "https://" else "http://") + domain,
        if o.secretToken.Found? then o.secretToken.value else "", RequestedEvents(spec.eventTypes), spec.secure)
    {
      options := new ProjectHookOptions(if o.accessToken.Found? then o.accessToken.value else "",
        if o.secretToken.Found? then o.secretToken.value else "");
      options.project := project;
      options.RequestAll(spec.eventTypes);
      if spec.secure {
        options.url := "https://" + domain;
        options.enableSSLVerification := true;
      } else {
        options.url := "http://" + domain;
      }
    }

    /** The call of the webhook client, with its booking. */
    method AddHook(a: Address, config: HookConfig, o: Oracle) returns (id: Option<string>)
      requires Valid()
      modifies cluster`state, cluster.remote
      ensures Valid()
      ensures var c := Create(old(cluster.Abs()).gitlab, a, o.hookId, config, o.addHook);
        id == c.1 && cluster.Abs() == HookCreated(old(cluster.Abs()), c.0, o.hookId, c.1.None?)
    {
      hide HookCreated, Create;
      CreateKeepsValid(cluster.remote.state, a, o.hookId, config, o.addHook);
      var before := cluster.remote.state;
      id := cluster.remote.ClientCreate(a, "", o.hookId, config, o.listHooksFails, o.addHook);
      cluster.Book(before, o.hookId, id.None?);
    }

    method CreateWebhook(s: V.Source, domain: string, o: Oracle) returns (hookID: string, r: Result)
      requires Valid()
      modifies cluster`state, cluster.remote
      ensures Valid()
      ensures Step(cluster.Abs(), if r.Success? then s.(status := s.status.(webhookIDKey := hookID)) else s, r)
           == Protocol.CreateWebhook(old(cluster.Abs()), s, domain, o)
    {
      hide AddressOf, HookCreated, Create, RequestedEvents, ValidGitLab, ProjectHookOptions.Config;
      hookID := "";
      var a := Addressed(s.spec.projectURL);
      if a.Error? { return "", Failure; }
      if a.Panic? { return "", Panicked; }
      var options := FillOptions(s.spec, domain, a.value.project, o);
      var id := AddHook(a.value, options.Config(), o);
      if id.None? { return "", Failure; }
      return id.value, Success;
    }

    /** `getProjectName` and then `getGitlabBaseURL`, as both callers use them. */
    method Addressed(projectURL: string) returns (a: Outcome<Address>)
      ensures a == AddressOf(projectURL)
    {
      var project := GetProjectName(projectURL);
      if project.Error? { return Error; }
      if project.Panic? { return Panic; }
      var baseURL := GetGitlabBaseURL(projectURL);
      return Ok(Address(baseURL.value, project.value));
    }

    method DeleteWebhook(s: V.Source, o: Oracle) returns (r: Result)
      requires Valid()
      modifies cluster.remote
      ensures Valid()
      ensures Step(cluster.Abs(), if r.Success? then s.(status := s.status.(webhookIDKey := "")) else s, r)
           == Protocol.DeleteWebhook(old(cluster.Abs()), s, o)
    {
      hide AddressOf, Delete;
      var a := Addressed(s.spec.projectURL);
      if a.Error? { return Failure; }
      if a.Panic? { return Panicked; }
      DeleteFacts(cluster.remote.state, a.value, s.status.webhookIDKey, o.listHooksFails, o.deleteHook);
      var ok := cluster.remote.ClientDelete(a.value, s.status.webhookIDKey, o.listHooksFails, o.deleteHook);
      return if ok then Success else Failure;
    }

    /** Lists the Services and picks the receive adapter's domain. */
    method PickDomain(s: V.Source, o: Oracle) returns (domain: Outcome<string>)
      requires Valid()
      modifies cluster, cluster.remote
      ensures Valid() && cluster.Redelivered() && cluster.Abs() == EnvSteps(old(cluster.Abs()), o.gaps.services)
      ensures domain == DomainOf(cluster.Abs().kube.services, s, o)
    {
      hide EnvSteps;
      EnvStepsValid(cluster.Abs(), o.gaps.services);
      cluster.Pass(o.gaps.services);
      if o.listServicesFails { return Error; }
      var svc := SelectService(cluster.state.kube.services, s);
      if svc.None? || svc.value.ingress == [] || svc.value.nodePorts == [] { return Panic; }
      return Ok(svc.value.ingress[0] + ":" + Itoa(svc.value.nodePorts[0]));
    }

    /** From the list of Services to the ID of the hook, on a source that has its finalizer. */
    method EnsureHook(s: V.Source, o: Oracle) returns (hookID: string, r: Result)
      requires Valid()
      modifies cluster, cluster.remote
      ensures Valid() && cluster.Redelivered()
      ensures Step(cluster.Abs(), if r.Success? && s.status.webhookIDKey == "" then s.(status := s.status.(webhookIDKey := hookID)) else s, r)
           == HookFrom(old(cluster.Abs()), s, o)
    {
      hide EnvSteps, Protocol.CreateWebhook, DomainOf;
      var domain := PickDomain(s, o);
      if domain.Error? { return "", Failure; }
      if domain.Panic? { return "", Panicked; }
      if s.status.webhookIDKey != "" { return "", Success; }
      EnvStepsValid(cluster.Abs(), o.gaps.hook);
      cluster.Pass(o.gaps.hook);
      hookID, r := CreateWebhook(s, domain.value, o);
    }

    /** Writing into the working copy does not show in the stores. */
    method AddFinalizerApart(source: GitLabSource)
      requires Apart(source)
      modifies source.meta`finalizers
      ensures cluster.Abs() == old(cluster.Abs())
      ensures source.Value() == old(source.Value()).(finalizers := F.Add(old(source.Value()).finalizers))
    {
      hide F.Add;
      AddFinalizer(source);
    }

    method StoreHook(source: GitLabSource, hookID: string)
      requires Apart(source)
      modifies source.status`webhookIDKey
      ensures cluster.Abs() == old(cluster.Abs())
      ensures source.Value() == old(source.Value()).(status := old(source.Value()).status.(webhookIDKey := hookID))
    {
      source.status.webhookIDKey := hookID;
    }

    method EnsureStoredHook(source: GitLabSource, o: Oracle) returns (r: Result)
      requires Valid() && Apart(source)
      modifies cluster, cluster.remote, source.status`webhookIDKey
      ensures Valid() && Apart(source) && cluster.Redelivered()
      ensures Step(cluster.Abs(), source.Value(), r) == HookFrom(old(cluster.Abs()), old(source.Value()), o)
    {
      hide HookFrom;
      var s := source.Value();
      var hookID;
      hookID, r := EnsureHook(s, o);
      assert source.Value() == s;
      if r.Success? && s.status.webhookIDKey == "" {
        StoreHook(source, hookID);
      }
    }

    method RegisterHook(source: GitLabSource, o: Oracle) returns (r: Result)
      requires Valid() && Apart(source)
      modifies cluster, cluster.remote, source.meta`finalizers, source.status`webhookIDKey
      ensures Valid() && Apart(source) && cluster.Redelivered()
      ensures Step(cluster.Abs(), source.Value(), r) == Protocol.RegisterHook(old(cluster.Abs()), old(source.Value()), o)
    {
      hide HookFrom, F.Add, Protocol.RegisterHook;
      RegisterHookFrom(cluster.Abs(), source.Value(), o);
      AddFinalizerApart(source);
      r := EnsureStoredHook(source, o);
    }

    // ---------- reconcile and finalize ----------

    method CheckSinkApart(source: GitLabSource, o: Oracle) returns (r: Result)
      requires Apart(source)
      modifies source.status`conditions, source.status`sinkURI
      ensures cluster.Abs() == old(cluster.Abs())
      ensures Settled(source.Value().status, r) == SettleStatus(old(source.Value()).spec, old(source.Value()).status, o)
      ensures source.Value() == old(source.Value()).(status := source.Value().status)
    {
      hide SettleStatus;
      r := CheckSink(source.spec, source.status, o);
    }

    /** Lists the Deployments and looks for the receiver. */
    method LookUpReceiver(s: V.Source, o: Oracle) returns (found: Option<bool>)
      requires Valid()
      modifies cluster, cluster.remote
      ensures Valid() && cluster.Redelivered() && cluster.Abs() == EnvSteps(old(cluster.Abs()), o.gaps.list)
      ensures found == if o.listDeploymentsFails then None else Some(HasReceiver(cluster.Abs().kube.deployments, s))
    {
      hide EnvSteps;
      EnvStepsValid(cluster.Abs(), o.gaps.list);
      cluster.Pass(o.gaps.list);
      if o.listDeploymentsFails { return None; }
      var receiver := GetOwnedReceiver(cluster.state.kube.deployments, s);
      return Some(receiver.Some?);
    }

    /** From the lookup of the receiver on. */
    method ReconcileChildren(source: GitLabSource, o: Oracle) returns (r: Result)
      requires Valid() && Apart(source)
      modifies cluster, cluster.remote, source.meta`finalizers, source.status`webhookIDKey
      ensures Valid() && Apart(source) && cluster.Redelivered()
      ensures Step(cluster.Abs(), source.Value(), r) == LiveFrom(old(cluster.Abs()), old(source.Value()), o)
    {
      hide EnvSteps, MakeChildren, Protocol.RegisterHook, HasReceiver, ValidGitLab, GitLabSource.Value, Cluster.Abs;
      var found := LookUpReceiver(source.Value(), o);
      if found.None? { return Failure; }
      if found.value {
        r := RegisterHook(source, o);
      } else {
        r := CreateChildren(source.Value(), o);
      }
    }

    method ReconcileSource(source: GitLabSource, o: Oracle) returns (r: Result)
      requires Valid() && Apart(source)
      modifies cluster, cluster.remote, source.meta`finalizers, source.status
      ensures Valid() && Apart(source) && cluster.Redelivered()
      ensures Step(cluster.Abs(), source.Value(), r) == ReconcileLive(old(cluster.Abs()), old(source.Value()), o)
    {
      hide ReconcileLive, LiveFrom, SettleStatus;
      ReconcileLiveFrom(cluster.Abs(), source.Value(), o);
      r := CheckSinkApart(source, o);
      if r == Success {
        r := ReconcileChildren(source, o);
      }
    }

    method RemoveFinalizerApart(source: GitLabSource)
      requires Apart(source)
      modifies source.meta`finalizers
      ensures cluster.Abs() == old(cluster.Abs())
      ensures source.Value() == old(source.Value()).(finalizers := F.Remove(old(source.Value()).finalizers))
    {
      hide F.Remove;
      RemoveFinalizer(source);
    }

    method DeleteHook(s: V.Source, o: Oracle) returns (r: Result)
      requires Valid()
      modifies cluster, cluster.remote
      ensures Valid() && cluster.Redelivered()
      ensures Step(cluster.Abs(), if r.Success? then s.(status := s.status.(webhookIDKey := "")) else s, r)
           == Protocol.DeleteWebhook(EnvSteps(old(cluster.Abs()), o.gaps.hook), s, o)
    {
      hide EnvSteps, Protocol.DeleteWebhook;
      EnvStepsValid(cluster.Abs(), o.gaps.hook);
      cluster.Pass(o.gaps.hook);
      r := DeleteWebhook(s, o);
    }

    method DeleteStoredHook(source: GitLabSource, o: Oracle) returns (r: Result)
      requires Valid() && Apart(source)
      modifies cluster, cluster.remote, source.status`webhookIDKey
      ensures Valid() && Apart(source) && cluster.Redelivered()
      ensures Step(cluster.Abs(), source.Value(), r) == Protocol.DeleteWebhook(EnvSteps(old(cluster.Abs()), o.gaps.hook), old(source.Value()), o)
    {
      hide EnvSteps, Protocol.DeleteWebhook;
      r := DeleteHook(source.Value(), o);
      if r.Success? {
        StoreHook(source, "");
      }
    }

    method MarkNoToken(source: GitLabSource, error: string, now: int)
      requires Apart(source)
      modifies source.status`conditions
      ensures cluster.Abs() == old(cluster.Abs())
      ensures source.Value() == old(source.Value()).(status := S.Apply(old(source.Value()).status, S.MarkNoSecrets("AccessTokenNotFound", error), now))
    {
      hide S.Apply;
      source.status.MarkNoSecrets("AccessTokenNotFound", error, now);
    }

    method FinalizeSource(source: GitLabSource, o: Oracle) returns (r: Result)
      requires Valid() && Apart(source)
      modifies cluster, cluster.remote, source.meta`finalizers, source.status
      ensures Valid() && Apart(source) && cluster.Redelivered()
      ensures Step(cluster.Abs(), source.Value(), r) == Finalize(old(cluster.Abs()), old(source.Value()), o)
    {
      hide EnvSteps, Protocol.DeleteWebhook, F.Remove, S.Apply;
      RemoveFinalizerApart(source);
      var s := source.Value();
      if s.status.webhookIDKey == "" { return Success; }
      if s.spec.accessToken.None? { return Panicked; }
      if o.accessToken.Missing? {
        MarkNoToken(source, o.accessToken.error, o.now);
        return Failure;
      }
      r := DeleteStoredHook(source, o);
    }

    // ---------- The write-backs ----------

    /**
     Overwrites the status of the object behind the informer's pointer; its conditions are then those of the
     working copy.
     */
    method OverwriteStatus(newSource: GitLabSource, source: GitLabSource)
      requires Apart(source) && cluster.cached == newSource
      modifies newSource.status
      ensures source.Value() == old(source.Value())
      ensures newSource.Value() == old(newSource.Value()).(status := old(source.Value()).status)
      ensures cluster.Abs() == old(cluster.Abs()).(store := old(cluster.Abs()).store.(cache := Some(newSource.Value())))
    {
      newSource.status.conditions, newSource.status.webhookIDKey, newSource.status.sinkURI :=
        source.status.conditions, source.status.webhookIDKey, source.status.sinkURI;
    }

    /** Whatever the environment does, an object somebody holds is not touched: a delivery makes a new one. */
    method PassHolding(held: GitLabSource, es: seq<Event>)
      requires Valid()
      modifies cluster, cluster.remote
      ensures Valid() && cluster.Redelivered() && held.Value() == old(held.Value())
      ensures cluster.Abs() == EnvSteps(old(cluster.Abs()), es)
    {
      hide EnvSteps;
      EnvStepsValid(cluster.Abs(), es);
      cluster.Pass(es);
    }

    /** The call, after whatever the environment does. */
    method SendStatus(newSource: GitLabSource, o: Oracle) returns (ok: bool)
      requires Valid()
      modifies cluster, cluster.remote
      ensures Valid() && cluster.Redelivered()
      ensures var w1 := EnvSteps(old(cluster.Abs()), o.gaps.statusCall);
        var r := ApiUpdateStatus(w1.store, old(newSource.Value()), o.updateStatus);
        (cluster.Abs(), ok) == (w1.(store := r.0), r.1)
    {
      hide EnvSteps, ApiUpdateStatus;
      PassHolding(newSource, o.gaps.statusCall);
      ok := cluster.UpdateStatus(newSource, o.updateStatus);
    }

    /** The write of `updateStatus`: first into the cached object, then to the server. */
    method SaveStatus(newSource: GitLabSource, source: GitLabSource, o: Oracle) returns (ok: bool)
      requires Valid() && Apart(source) && cluster.cached == newSource && newSource.status.Value() != source.status.Value()
      modifies cluster, cluster.remote, newSource.status
      ensures Valid() && Apart(source) && cluster.Redelivered()
      ensures (cluster.Abs(), ok) == Protocol.UpdateStatus(old(cluster.Abs()), old(source.Value()), o)
      ensures source.Value() == old(source.Value())
    {
      hide EnvSteps, ApiUpdateStatus;
      OverwriteStatus(newSource, source);
      ok := SendStatus(newSource, o);
    }

    method UpdateStatus(source: GitLabSource, o: Oracle) returns (ok: bool)
      requires Valid() && Apart(source)
      modifies cluster, cluster.remote, if cluster.cached == null then {} else {cluster.cached.status}
      ensures Valid() && Apart(source) && cluster.Redelivered()
      ensures (cluster.Abs(), ok) == Protocol.UpdateStatus(old(cluster.Abs()), old(source.Value()), o)
      ensures source.Value() == old(source.Value())
    {
      hide EnvSteps, ApiUpdateStatus;
      var newSource := cluster.cached;
      if newSource == null { return false; }
      if newSource.status.Value() == source.status.Value() { return true; }
      ok := SaveStatus(newSource, source, o);
    }

    method OverwriteFinalizers(newSource: GitLabSource, source: GitLabSource)
      requires Apart(source) && cluster.cached == newSource
      modifies newSource.meta`finalizers
      ensures source.Value() == old(source.Value())
      ensures newSource.Value() == old(newSource.Value()).(finalizers := old(source.Value()).finalizers)
      ensures cluster.Abs() == old(cluster.Abs()).(store := old(cluster.Abs()).store.(cache := Some(newSource.Value())))
    {
      newSource.meta.finalizers := source.meta.finalizers;
    }

    method SendUpdate(newSource: GitLabSource, o: Oracle) returns (ok: bool)
      requires Valid()
      modifies cluster, cluster.remote
      ensures Valid() && cluster.Redelivered()
      ensures var w1 := EnvSteps(old(cluster.Abs()), o.gaps.updateCall);
        var r := ApiUpdate(w1.store, old(newSource.Value()), o.update);
        (cluster.Abs(), ok) == (w1.(store := r.0), r.1)
    {
      hide EnvSteps, ApiUpdate;
      PassHolding(newSource, o.gaps.updateCall);
      ok := cluster.Update(newSource, o.update);
    }

    /** The write of `update`. */
    method SaveFinalizers(newSource: GitLabSource, source: GitLabSource, o: Oracle) returns (ok: bool)
      requires Valid() && Apart(source) && cluster.cached == newSource && Slice(newSource.meta.finalizers) != Slice(source.meta.finalizers)
      modifies cluster, cluster.remote, newSource.meta`finalizers
      ensures Valid() && Apart(source) && cluster.Redelivered()
      ensures (cluster.Abs(), ok) == Protocol.Update(old(cluster.Abs()), old(source.Value()), o)
    {
      hide EnvSteps, ApiUpdate;
      OverwriteFinalizers(newSource, source);
      ok := SendUpdate(newSource, o);
    }

    method Update(source: GitLabSource, o: Oracle) returns (ok: bool)
      requires Valid() && Apart(source)
      modifies cluster, cluster.remote, (if cluster.cached == null then {} else {cluster.cached.meta})`finalizers
      ensures Valid() && Apart(source) && cluster.Redelivered()
      ensures (cluster.Abs(), ok) == Protocol.Update(old(cluster.Abs()), old(source.Value()), o)
    {
      hide EnvSteps, ApiUpdate;
      var newSource := cluster.cached;
      if newSource == null { return false; }
      if Slice(newSource.meta.finalizers) == Slice(source.meta.finalizers) { return true; }
      ok := SaveFinalizers(newSource, source, o);
    }

    /** The first comparison of `Reconcile`, against the object the run has read, and its write. */
    method WriteStatus(original: GitLabSource, source: GitLabSource, o: Oracle) returns (ok: bool)
      requires Valid() && Apart(source)
      modifies cluster, cluster.remote, if cluster.cached == null then {} else {cluster.cached.status}
      ensures Valid() && Apart(source) && cluster.Redelivered()
      ensures (cluster.Abs(), ok) == Protocol.WriteStatus(old(cluster.Abs()), old(original.Value()), old(source.Value()), o)
      ensures source.Value() == old(source.Value())
    {
      hide EnvSteps, Protocol.UpdateStatus, ValidGitLab, GitLabSource.Value, GitLabSourceStatus.Value, Cluster.Abs;
      ValueStatus(original);
      ValueStatus(source);
      var same := original.status.Value() == source.status.Value();
      PassHolding(source, o.gaps.status);
      ok := true;
      if !same {
        ok := UpdateStatus(source, o);
      }
    }

    method WriteFinalizers(original: GitLabSource, source: GitLabSource, o: Oracle) returns (ok: bool)
      requires Valid() && Apart(source)
      modifies cluster, cluster.remote, (if cluster.cached == null then {} else {cluster.cached.meta})`finalizers
      ensures Valid() && Apart(source) && cluster.Redelivered()
      ensures (cluster.Abs(), ok) == Protocol.WriteFinalizers(old(cluster.Abs()), old(original.Value()), old(source.Value()), o)
    {
      hide EnvSteps, Protocol.Update, ValidGitLab, GitLabSource.Value, Cluster.Abs;
      ValueFinalizers(original);
      ValueFinalizers(source);
      var same := Slice(original.meta.finalizers) == Slice(source.meta.finalizers);
      PassHolding(source, o.gaps.update);
      ok := true;
      if !same {
        ok := Update(source, o);
      }
    }

    method WriteBack(original: GitLabSource, source: GitLabSource, result: Result, o: Oracle) returns (r: Result)
      requires Valid() && Apart(source)
      modifies cluster, cluster.remote, (if cluster.cached == null then {} else {cluster.cached.meta})`finalizers
      modifies if cluster.cached == null then {} else {cluster.cached.status}
      ensures Valid()
      ensures (cluster.Abs(), r) == Protocol.WriteBack(old(cluster.Abs()), old(original.Value()), old(source.Value()), result, o)
    {
      hide Protocol.WriteStatus, Protocol.WriteFinalizers, ValidGitLab, GitLabSource.Value, Cluster.Abs;
      ghost var before := original.Value();
      ValueFinalizers(original);
      var ok := WriteStatus(original, source, o);
      if !ok { return Failure; }
      ValueFinalizers(original);
      SameFinalizersSameWrite(cluster.Abs(), before, original.Value(), source.Value(), o);
      ok := WriteFinalizers(original, source, o);
      r := if ok then result else Failure;
    }

    /** The part of a run between the deep copy and the writes; the object behind the pointer is not in its frame. */
    method Work(source: GitLabSource, o: Oracle) returns (r: Result)
      requires Valid() && Apart(source)
      modifies cluster, cluster.remote, source.meta`finalizers, source.status
      ensures Valid() && Apart(source) && cluster.Redelivered()
      ensures Step(cluster.Abs(), source.Value(), r) == Body(old(cluster.Abs()), old(source.Value()), o)
    {
      hide Finalize, ReconcileLive;
      if source.meta.deleting {
        r := FinalizeSource(source, o);
      } else {
        r := ReconcileSource(source, o);
      }
    }

    /** The working copy and its run: nothing that is reachable from `original` changes. */
    method WorkOnCopy(original: GitLabSource, o: Oracle) returns (source: GitLabSource, r: Result)
      requires Valid() && cluster.cached == original
      modifies cluster, cluster.remote
      ensures Valid() && Apart(source) && cluster.Redelivered()
      ensures fresh(source) && fresh(source.meta) && fresh(source.spec) && fresh(source.status)
      ensures original.Value() == old(original.Value())
      ensures Step(cluster.Abs(), source.Value(), r) == Body(old(cluster.Abs()), old(original.Value()), o)
    {
      hide Body, ValidGitLab, GitLabSourceSpec.Value, ObjectMeta.Value, GitLabSourceStatus.Value;
      source := original.DeepCopy();
      r := Work(source, o);
    }

    /** `Reconcile` on an object that the lister has found; a panic ends the process, and a new one lists afresh. */
    method ReconcileFound(original: GitLabSource, o: Oracle) returns (r: Result)
      requires Valid() && cluster.cached == original
      modifies cluster, cluster.remote, original.meta`finalizers, original.status
      ensures Valid()
      ensures var b := Body(old(cluster.Abs()), old(original.Value()), o);
        (cluster.Abs(), r) == if b.result.Panicked? then (Restarted(b.world), Panicked)
                              else Protocol.WriteBack(b.world, old(original.Value()), b.source, b.result, o)
    {
      hide Body, Protocol.WriteBack;
      var source;
      source, r := WorkOnCopy(original, o);
      if r.Panicked? {
        cluster.Restart();
      } else {
        r := WriteBack(original, source, r, o);
      }
    }

    /**
     One run. Its frame is the separation of the copies: of the object behind the informer's pointer, a
     run writes the status and the finalizers only, and these only in the write-backs.
     */
    method Reconcile(o: Oracle) returns (r: Result)
      requires Valid()
      modifies cluster, cluster.remote, (if cluster.cached == null then {} else {cluster.cached.meta})`finalizers
      modifies if cluster.cached == null then {} else {cluster.cached.status}
      ensures Valid()
      ensures (cluster.Abs(), r) == Protocol.Reconcile(old(cluster.Abs()), o)
    {
      hide Body, Protocol.WriteBack;
      if o.listerFails {
        r := Failure;
      } else if cluster.cached == null {
        r := Success;
      } else {
        r := ReconcileFound(cluster.cached, o);
      }
      cluster.Charge(r);
    }
  }

  lemma ValueStatus(s: GitLabSource)
    ensures s.Value().status == s.status.Value()
  {
  }

  lemma ValueFinalizers(s: GitLabSource)
    ensures s.Value().finalizers == Slice(s.meta.finalizers)
  {
  }

  lemma SameFinalizersSameWrite(w: World, a: V.Source, b: V.Source, s: V.Source, o: Oracle)
    requires a.finalizers == b.finalizers
    ensures Protocol.WriteFinalizers(w, a, s, o) == Protocol.WriteFinalizers(w, b, s, o)
  {
  }

  /** What `ReconcileLive` does after the conditions. */
  function LiveFrom(w: World, s: V.Source, o: Oracle): Step {
    var w1 := EnvSteps(w, o.gaps.list);
    if o.listDeploymentsFails then Step(w1, s, Failure)
    else if !HasReceiver(w1.kube.deployments, s) then MakeChildren(w1, s, o)
    else Protocol.RegisterHook(w1, s, o)
  }

  lemma ReconcileLiveFrom(w: World, s: V.Source, o: Oracle)
    ensures var a := SettleStatus(s.spec, s.status, o);
      ReconcileLive(w, s, o) == if a.result != Success then Step(w, s.(status := a.status), a.result) else LiveFrom(w, s.(status := a.status), o)
  {
  }

  /** The address of the chosen Service; an index panic without one. */
  function DomainOf(services: seq<Service>, s: V.Source, o: Oracle): Outcome<string> {
    if o.listServicesFails then Error
    else
      var svc := ChooseService(services, s);
      if svc.None? || svc.value.ingress == [] || svc.value.nodePorts == [] then Panic
      else Ok(svc.value.ingress[0] + ":" + Itoa(svc.value.nodePorts[0]))
  }

  /** What `RegisterHook` does after adding the finalizer. */
  function HookFrom(w: World, s: V.Source, o: Oracle): Step {
    var w1 := EnvSteps(w, o.gaps.services);
    match DomainOf(w1.kube.services, s, o)
    case Error => Step(w1, s, Failure)
    case Panic => Step(w1, s, Panicked)
    case Ok(domain) =>
      if s.status.webhookIDKey != "" then Step(w1, s, Success)
      else Protocol.CreateWebhook(EnvSteps(w1, o.gaps.hook), s, domain, o)
  }

  lemma RegisterHookFrom(w: World, s: V.Source, o: Oracle)
    ensures Protocol.RegisterHook(w, s, o) == HookFrom(w, s.(finalizers := F.Add(s.finalizers)), o)
  {
  }

  lemma CreateKeepsValid(g: GitLab, a: Address, id: int, config: HookConfig, reply: Reply)
    requires ValidGitLab(g)
    ensures ValidGitLab(Create(g, a, id, config, reply).0)
  {
    AddFacts(g, a, id, config, reply);
  }
}
