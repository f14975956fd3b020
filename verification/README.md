# GitLabSource reconciler: a verified model

The GitLabSource controller registers a webhook with GitLab for every GitLabSource resource, keeps a
receiver Deployment and a public Service for it, and removes the hook when the resource is deleted. This
project models that controller in Dafny and proves what it keeps, and what it loses, over all histories of
calls that fail, caches that lag, writes that conflict, and users who edit and delete.

`dafny verify dfyconfig.toml` checks everything.

## How the model is built

- **Kernels.** `Numerals` (hook IDs as strings), `ProjectUrls` and `UrlBranches` (base URL and project name, form
  by form), `Adapter` (SSH clone URLs), `Finalizers` (canonical lists), `Statuses` and `Settling` (readiness conditions), `Hooks` (the
  webhook client over GitLab's hooks), `Resources` (Deployment, Service and how they are found again).
- **Protocol.** `Protocol` is one run of `Reconcile` as a function of a world and an oracle. The world is the
  API server's log of versions, the version the informer has seen and the cached object it holds, the live
  Deployments and Services, GitLab's hooks, and a ledger that no code reads. The oracle fixes the outcome of
  every external call (done, refused, or done with the reply lost) and what the environment does in the gap
  before it. A history is any sequence of environment events, restarts and runs. Status and main resource are
  separate endpoints with optimistic concurrency; `updateStatus` and `update` overwrite the cached object
  before they call the server, although the comment at pkg/reconciler/gitlabsource.go:106 says that the
  informer's copy is not modified.
- **Theorems.** `Invariants`, `Accounting`, `HookRuns`, `WriteBacks`, `HookTheorems`, `StoredStatuses`,
  `ReadYourWrites` and `CleanHistories` (hooks and statuses), `Bookkeeping` and `Receivers` (children),
  `LiveRuns` (what one run does, and how it ends), `Convergence` and `Finalization` (progress), `LostWrites`, `HookLeaks` and `ExactLeaks` (what goes wrong, and
  exactly when), `Shadows` and `Fleet` (many sources); `SetSizes` has the counting lemmas they share.
- **Objects.** `StatusObjects`, `SourceObjects`, `ClusterObjects` and `Reconcilers` are the imperative code:
  classes with the fields, pointers and slices of the Go structs, deep copies, the loops of the condition
  manager, and the reconciler's methods writing through the informer's pointer. `Reconcilers.Reconciler.Reconcile`
  is proved to do to the abstract world exactly what `Protocol.Reconcile` does, so every theorem holds of it.

## What is assumed

- The watch delivers strictly newer versions, possibly skipping some, in any gap of a run. A relist, which
  refreshes the cached object even without a newer version, happens between runs; it is the same step as a
  restart of the process.
- Nothing else happens between the two calls to GitLab of one `Delete`, nor between the lookups of the secrets
  and of the sink, which only read.
- One worker handles a key at a time. Every Go panic ends the process; the new process lists afresh.
- Hook IDs are 64-bit, fresh and never reused; a listing of hooks is complete.
- Only the controller writes the status and its own finalizer; nobody relabels its Deployments or makes
  Deployments owned by its sources; UIDs are never reused.
- The API server accepts no new finalizer on a deleted object and removes it with its last finalizer.
- All conditions of one run get the same clock reading.
- Two projects are the same when base URL and project name are the same strings. That GitLab may serve one project under
  several such pairs (letter case of the host, http and https, the slash that `SetBaseURL` adds) is not modelled.
- Read-your-writes, the stored statuses, histories without failed runs, the receiver invariant and non-interference
  hold over all histories. The accounting of hooks has one hypothesis, that the project URL stays the same
  (`UrlFixed`); `Finalization.EditedUrlLeaks` shows by a history from every initial world that it cannot be dropped.
  `Finalization.CaughtUp` shows that the theorems about rounds start from every reachable world whose cache has
  caught up.

## Findings

1. Live hooks that the server does not record are not bounded by failed runs alone. A lost reply of the hook
   registration together with a finalizer write that fails costs two hooks for one failed run
   (`HookLeaks.LostReplyLeaksTwo`), and an undisturbed run costs two exactly then (`ExactLeaks.TwoHooksIff`). Counting
   those double faults, and the runs of Finding 2, gives a bound for every history with a fixed URL
   (`HookTheorems.HookAccounting`).
2. A source that is deleted and made anew between the two writes of one run can leak its hook while every run
   returns nil (`HookLeaks.RecreationLeaks`). A registering run that returns nil leaks its hook if and only if the
   source is lost between the writes (`ExactLeaks.SilentLeakIff`): made anew and delivered, if the run has its
   finalizer to write, since otherwise the write conflicts and the run fails; and by any deletion there, if the cached
   object falsely claimed the finalizer already.
3. Editing the project URL before the deletion leaks the hook without any error (`Finalization.EditedUrlLeaks`),
   and exactly then (`Finalization.EditedUrlLeaksIff`): `Delete` succeeds when the hook is not listed.
4. The run that registers the hook returns an error, although no call fails, unless the watch delivers the first
   of its two writes before the second (`Convergence.RegisteringConflicts`).
5. A refused finalizer write is never retried until a new version is delivered, because the cached object already
   shows what was to be written (`LostWrites.RefusedWriteIsNotRetried`).
6. The error of creating the Service is dropped, the run returns nil, and the Service is never created again: every
   later run of the live source fails or panics (`LostWrites.RefusedServiceIsForEver`).
7. A finalizer write restores the list of foreign finalizers to what the run had read
   (`LostWrites.ForeignFinalizerKeptIff`).
8. After recovered secrets Ready is False although no dependent condition is (`Statuses.StaleAfterMarkSecrets`), but
   only inside a run, until the sink is marked: no status that is ever stored or cached shows it
   (`StoredStatuses.StatusesOverAllHistories`).
9. A project URL with an escape in its path, a query, a fragment, or no leading slash in its path gets a wrong API
   base URL (`ProjectUrls.BaseCorrectIff`). In particular a URL without scheme, such as a host and a path, is cut after
   its first character (`ProjectUrls.SchemelessIsCut`).
10. A new sink never reaches the receiver: the source becomes ready with the new sink in its status while the
    Deployment still sends to the sink of its creation (`Convergence.SinkChangeIsNotPropagated`), and that happens to
    every source with a receiver and a load balancer that is redirected (`Convergence.RedirectedReceiverStays`).
11. A hook that is removed in GitLab is never registered again while its ID is stored
    (`ReadYourWrites.RemovedHookIsNotReplaced`), and nobody is told: the source stays ready and its runs return nil
    (`Convergence.RemovedHookGoesUnnoticed`).
12. A deletion is blocked for ever when `finalize` panics: the source holds a hook ID, and its access token selector
    was removed or its URL was edited to one with an empty path (`Finalization.PanicBlocksDeletion`).
13. A secret lookup that fails with an ever new text can block a deletion for as long as it does
    (`Finalization.NewTextsBlockDeletion`); the finalizer survives a round exactly when `finalize` panics, or the
    status changes and that write is not delivered before the finalizer write (`Finalization.FinalizerStaysIff`).
14. A refused status write is not retried either: the new hook ID stays in the cached object only, later runs find
    nothing to write (`LostWrites.RefusedStatusIsNotRetried`) and return nil (`LostWrites.HiddenStatusIsSilent`), and the
    next version that is delivered takes the ID away.
15. An SSH clone URL becomes the web URL of its project if and only if host and path have no `.git` inside
    (`Adapter.SshBecomesHttps`): the last pass removes every one, so that `my.gitlab.com` becomes `mylab.com`
    (`Adapter.WrongHost`).
16. A source with neither sink nor URI goes on after it was marked as not ready: it gets a receiver that sends to the
    URI its status had from before, which for a new source is empty (`LiveRuns.RunMakesChildren`), and then a hook.

## Model

| member | source | states |
|---|---|---|
| Numerals.AtoiItoa | pkg/reconciler/webhook_client.go:95-100 | every 64-bit hook ID survives being stored as a string, and the string is never the empty one that means "no hook" |
| Numerals.ItoaInjective | pkg/reconciler/webhook_client.go:95-100 | different hooks get different stored IDs |
| Numerals.ItoaAppends | pkg/reconciler/gitlabsource.go:208 | decimal notation, digit by digit, as the node port is printed in the hook's URL |
| Numerals.AtoiAppends | pkg/reconciler/webhook_client.go:58-62 | a stored ID is read as a decimal number, within 64 bits |
| Numerals.AtoiForms | pkg/reconciler/webhook_client.go:58-62 | one sign may precede the digits; anything else is an error |
| Hooks.GitLabServer.ClientCreate | pkg/reconciler/webhook_client.go:52-96 | for an empty stored ID a hook joins the project's hooks; for a stored one the loop looks for it, and adds a hook only if it is not listed; a returned ID parses back to a hook registered at that address, all other hooks stay, and every failure is reported, also when the hook was added and the reply lost |
| Hooks.GitLabServer.ClientDelete | pkg/reconciler/webhook_client.go:98-123 | the loop over the listed hooks removes the hook of the stored ID, if it is listed at that address, and reports exactly the failures |
| Hooks.CreateIsIdempotent | pkg/reconciler/webhook_client.go:58-96 | creating again with the returned ID finds the hook and changes nothing; after a Delete it adds a new one |
| Hooks.CreateThenDelete | pkg/reconciler/webhook_client.go:90-122 | deleting with the string that Create returned restores the hook list, whatever else is registered |
| Hooks.DeleteFacts | pkg/reconciler/webhook_client.go:98-122 | Delete removes no other hook; after a success the hook is gone from that address, and repeating the call succeeds and changes nothing |
| Hooks.DeleteNeedsAddress | pkg/reconciler/webhook_client.go:107-118 | a successful Delete removes the hook if and only if it is given the hook's own base URL and project |
| Hooks.ProjectHookOptions.Request | pkg/reconciler/gitlabsource.go:286-305 | one iteration of the option loop sets the one option named, and leaves all other fields |
| Hooks.ProjectHookOptions.RequestAll | pkg/reconciler/gitlabsource.go:285-306 | after the loop each option is set exactly when its event type is listed |
| Hooks.EventsDependOnMembersOnly | pkg/reconciler/gitlabsource.go:285-306 | order and multiplicity of the requested types do not matter |
| ProjectUrls.BaseIsPrefix | pkg/reconciler/gitlabsource.go:326-334 | for every parsed URL with a non-empty path the base is a prefix of the URL; an empty path is an index panic |
| ProjectUrls.BaseCorrectIff | pkg/reconciler/gitlabsource.go:326-334 | for every parsed URL with a non-empty path: the base is what precedes the path, with a slash, if and only if the path starts with a slash, nothing follows it and it has no escape |
| ProjectUrls.SplitIsLossless | pkg/reconciler/gitlabsource.go:261-268 | for every URL whose path is non-empty, without escape and last, base URL followed by project name is the URL |
| ProjectUrls.SchemelessIsCut | pkg/reconciler/gitlabsource.go:326-342 | a URL that is only a relative path gets its first character as base URL and the rest as project |
| UrlBranches.WebUrl | pkg/reconciler/gitlabsource.go:261-268 | `S://H/P` for every scheme S, host H and path P without escape: base `S://H/`, project P |
| UrlBranches.HostOnly | pkg/reconciler/gitlabsource.go:261-268 | `S://H` is an index panic |
| UrlBranches.OpaqueUrl | pkg/reconciler/gitlabsource.go:261-268 | a scheme that no slash follows leaves no path: an index panic |
| UrlBranches.SchemeAndPath | pkg/reconciler/gitlabsource.go:261-268 | `S:/P`: base `S:/`, project P |
| UrlBranches.RootedPath | pkg/reconciler/gitlabsource.go:261-268 | `/P`: base `/`, project P |
| UrlBranches.HostAndPath | pkg/reconciler/gitlabsource.go:261-268 | `//H/P`: base `//H/`, project P |
| UrlBranches.HostWithoutPath | pkg/reconciler/gitlabsource.go:261-268 | `//H` is an index panic |
| UrlBranches.ThreeSlashes | pkg/reconciler/gitlabsource.go:261-268 | `///P` has no host: base `/`, project `//P` |
| UrlBranches.ColonInSegment | pkg/reconciler/gitlabsource.go:261-268 | a first segment with a colon that is no scheme is an error, whatever follows |
| UrlBranches.RelativePath | pkg/reconciler/gitlabsource.go:326-334 | a relative path is cut after its first character, also with colons after the first slash |
| UrlBranches.QueryKeepsName | pkg/reconciler/gitlabsource.go:261-268 | for every URL a query does not change the project name |
| UrlBranches.FragmentKeepsName | pkg/reconciler/gitlabsource.go:261-268 | nor does a fragment, unless it cannot be decoded, which is an error |
| UrlBranches.BaseKeepsTail | pkg/reconciler/gitlabsource.go:326-334 | `S://H/P?q` and `S://H/P#f`: query and fragment stay in the base URL, cut short where they end with the project name |
| UrlBranches.EscapedPath | pkg/reconciler/gitlabsource.go:261-268 | an escape of any byte, in either case of its digits, is decoded in the project name |
| UrlBranches.MalformedPath | pkg/reconciler/gitlabsource.go:261-268 | a per cent sign without two hexadecimal digits is an error |
| ProjectUrls.AddressInjective | pkg/reconciler/gitlabsource.go:344-353 | so different URLs address different projects |
| Adapter.RewriteUrl | pkg/adapter/adapter.go:129-134 | an SSH URL comes out starting with `https://`, any other as it is, the empty one included; rewriting the result again changes nothing |
| Adapter.SshBecomesHttps | pkg/adapter/adapter.go:127-134 | `git@H:P.git` becomes `https://H/P` if and only if H and P have no `.git` inside, for all H and P without colon and `git@` |
| Adapter.CloneUrl | pkg/adapter/adapter.go:127-134 | with `.git` inside, every one of them goes, in the host as well |
| Adapter.WrongHost | pkg/adapter/adapter.go:127-134 | `git@my.gitlab.com:a/b.git` becomes `https://mylab.com/a/b` |
| Adapter.RewrittenOf | pkg/adapter/adapter.go:130-134 | for every SSH URL: a scheme in front, slashes for all colons, a scheme for every further `git@`, and no `.git` |
| Strings.ReplaceAllFirst | pkg/adapter/adapter.go:131-133 | a pass replaces the first occurrence and goes on behind it |
| Strings.ReplaceAllAbsent | pkg/adapter/adapter.go:131-133 | a pass over a text without occurrence changes nothing |
| Adapter.RewrittenPrefix | pkg/adapter/adapter.go:130-134 | a rewritten URL starts with `https://`, whatever follows the leading `git@` |
| Adapter.RewriteIdempotent | pkg/adapter/adapter.go:130-134 | rewriting twice is rewriting once, on every input |
| Finalizers.SortedUnique | pkg/reconciler/gitlabsource.go:397-407 | canonical lists with the same members are equal |
| Strings.LessIff | pkg/reconciler/gitlabsource.go:397-407 | lists of finalizers ascend: the first different character decides, and a prefix comes first |
| Finalizers.AddRemoveMembers | pkg/reconciler/gitlabsource.go:397-407 | both operations return canonical lists, settle our finalizer and keep all others |
| Finalizers.AddRemoveAlgebra | pkg/reconciler/gitlabsource.go:397-407 | add and remove are idempotent and undo each other up to canonical form |
| Finalizers.WriteNeeded | pkg/reconciler/gitlabsource.go:130-131 | the comparison asks for a write exactly when membership changes or the stored list is not canonical |
| Statuses.SetFacts | vendor/knative.dev/pkg/apis/duck/v1alpha1/condition_set.go:190-212 | SetCondition keeps the list sorted and all other types, stores the content, and moves the transition time to now exactly when something else changes |
| Statuses.RankIsAlphabetical | vendor/knative.dev/pkg/apis/duck/v1alpha1/condition_set.go:209-210 | conditions are sorted by the names of their types |
| Settling.OpOutcome | pkg/apis/sources/v1alpha1/gitlab_types.go:137-166 | for each operation on every list: status, reason and message of each condition afterwards, the URI, and the hook ID |
| Statuses.ApplyCoherent | pkg/apis/sources/v1alpha1/gitlab_types.go:137-166 | every operation keeps: Ready is True iff both dependents are, a True sink has a URI, a False dependent makes Ready False; none touches the hook ID |
| Statuses.ReadinessOverAllHistories | pkg/apis/sources/v1alpha1/gitlab_types.go:107-166 | these hold after every sequence of operations from an empty status, although MarkNoSink leaves the URI |
| Statuses.StaleAfterMarkSecrets | vendor/knative.dev/pkg/apis/duck/v1alpha1/condition_set.go:237-260 | exactly when `MarkSecrets` leaves Ready False with no dependent False |
| Statuses.StaleFalseIsReachable | pkg/apis/sources/v1alpha1/gitlab_types.go:142-150 | two calls from an empty status reach that state, inside a run |
| StoredStatuses.StatusesOverAllHistories | pkg/reconciler/gitlabsource.go:116-165 | over every history each stored version and the cached object has a coherent status, and Ready is False only while a dependent is |
| StoredStatuses.StoredIdStays | pkg/reconciler/gitlabsource.go:209-259 | over every history a stored ID stays from version to version until `finalize` clears it on the deleted object |
| Settling.SettleOnce | pkg/reconciler/gitlabsource.go:140-165 | with secrets and sink available one run settles the conditions for the resolved URI, and the status is unchanged exactly when it was settled |
| Settling.AllPresent | pkg/apis/sources/v1alpha1/gitlab_types.go:132-161 | a settled source is ready if and only if its sink resolved to a non-empty URI |
| StatusObjects.GitLabSourceStatus.GetCondition | pkg/apis/sources/v1alpha1/gitlab_types.go:128-130 | the loop finds the first condition of the type |
| StatusObjects.GitLabSourceStatus.SetCondition | vendor/knative.dev/pkg/apis/duck/v1alpha1/condition_set.go:190-212 | the loop computes `Statuses.Set` and never writes into the old slice |
| StatusObjects.GitLabSourceStatus.MarkTrue | vendor/knative.dev/pkg/apis/duck/v1alpha1/condition_set.go:237-260 | the loop over the dependents computes `Statuses.MarkTrue` |
| StatusObjects.GitLabSourceStatus.MarkUnknown | vendor/knative.dev/pkg/apis/duck/v1alpha1/condition_set.go:264-302 | the loop with its early returns computes `Statuses.MarkUnknown` |
| StatusObjects.GitLabSourceStatus.MarkFalse | vendor/knative.dev/pkg/apis/duck/v1alpha1/condition_set.go:305-322 | the two loops compute `Statuses.MarkFalse` |
| StatusObjects.GitLabSourceStatus.IsReady | pkg/apis/sources/v1alpha1/gitlab_types.go:133-135 | true exactly when Ready is True |
| StatusObjects.GitLabSourceStatus.InitializeConditions | pkg/apis/sources/v1alpha1/gitlab_types.go:138-140 | the status operation that the readiness theorems are about |
| StatusObjects.GitLabSourceStatus.MarkSecrets | pkg/apis/sources/v1alpha1/gitlab_types.go:143-145 | likewise |
| StatusObjects.GitLabSourceStatus.MarkNoSecrets | pkg/apis/sources/v1alpha1/gitlab_types.go:148-150 | likewise |
| StatusObjects.GitLabSourceStatus.MarkSink | pkg/apis/sources/v1alpha1/gitlab_types.go:153-161 | likewise, with the URI |
| StatusObjects.GitLabSourceStatus.MarkNoSink | pkg/apis/sources/v1alpha1/gitlab_types.go:164-166 | likewise |
| StatusObjects.GitLabSourceStatus.DeepCopyInto | pkg/apis/sources/v1alpha1/zz_generated.deepcopy.go:123-127 | an equal status with a conditions array of its own |
| SourceObjects.CopySecretRef | pkg/apis/sources/v1alpha1/zz_generated.deepcopy.go:140-148 | an equal secret reference in new storage, nil for nil |
| SourceObjects.GitLabSourceSpec.DeepCopyInto | pkg/apis/sources/v1alpha1/zz_generated.deepcopy.go:90-110 | an equal spec whose event list, secret references, sink and URI are all new storage |
| SourceObjects.ObjectMeta.DeepCopyInto | vendor/k8s.io/apimachinery/pkg/apis/meta/v1/zz_generated.deepcopy.go:638-682 | equal metadata with a finalizer list of its own |
| SourceObjects.GitLabSource.DeepCopyInto | pkg/apis/sources/v1alpha1/zz_generated.deepcopy.go:29-36 | an equal source sharing no storage with the original |
| SourceObjects.GitLabSource.DeepCopy | pkg/apis/sources/v1alpha1/zz_generated.deepcopy.go:39-46 | the same, in a new object; the original is not touched |
| Resources.GetOwnedReceiver | pkg/reconciler/gitlabsource.go:374-395 | the loop returns a Deployment that has namespace, labels and controller of the source, if and only if there is one |
| Resources.CreatedReceiverIsFound | pkg/reconciler/resources/service.go:29-55 | what MakeReceiveAdapter labels and the source owns is found by the next lookup, under every generated name |
| Resources.SelectService | pkg/reconciler/gitlabsource.go:201-206 | the loop keeps the last Service of the namespace whose name has the source's name as prefix, and none if and only if there is none |
| Resources.LastIsChosen | pkg/reconciler/gitlabsource.go:201-206 | a qualifying Service that no qualifying one follows is the one chosen |
| Resources.ChosenIsLast | pkg/reconciler/gitlabsource.go:201-206 | conversely, none that qualifies follows the one chosen |
| Resources.ChosenIsCandidate | pkg/reconciler/gitlabsource.go:201-206 | the chosen Service is listed and qualifies; none is chosen exactly when none qualifies |
| Resources.OwnServiceQualifies | pkg/reconciler/resources/service.go:84-94 | the Service made for a source qualifies under every generated name |
| Resources.OrderIndependentIff | pkg/reconciler/gitlabsource.go:201-206 | the choice is the same for every order of the list if and only if all qualifying Services are one and the same |
| Reconcilers.Reconciler.AddFinalizer | pkg/reconciler/gitlabsource.go:397-401 | replaces the list in place by `Finalizers.Add` of it and nothing else |
| Reconcilers.Reconciler.RemoveFinalizer | pkg/reconciler/gitlabsource.go:403-407 | replaces the list in place by `Finalizers.Remove` of it and nothing else |
| Reconcilers.Reconciler.CheckSecrets | pkg/reconciler/gitlabsource.go:140-152 | the conditions and result of the two secret lookups; a missing selector is a nil dereference |
| Reconcilers.Reconciler.CheckSink | pkg/reconciler/gitlabsource.go:140-165 | the same up to the sink |
| Reconcilers.Reconciler.CreateChildren | pkg/reconciler/gitlabsource.go:169-188 | Deployment, then Service; only the first result counts |
| Reconcilers.Reconciler.FillOptions | pkg/reconciler/gitlabsource.go:273-313 | the hook that is asked for: URL and verification by `secure`, token, and the requested events |
| Reconcilers.Reconciler.CreateWebhook | pkg/reconciler/gitlabsource.go:270-324 | does to hooks and ledger what the protocol's step does, and returns the ID to store |
| Reconcilers.Reconciler.DeleteWebhook | pkg/reconciler/gitlabsource.go:336-360 | likewise for the deletion |
| Reconcilers.Reconciler.PickDomain | pkg/reconciler/gitlabsource.go:196-208 | the address of the chosen Service, or an index panic when it has no ingress or port |
| Reconcilers.Reconciler.RegisterHook | pkg/reconciler/gitlabsource.go:194-224 | from addFinalizer to the stored ID, on the working copy only |
| Reconcilers.Reconciler.ReconcileSource | pkg/reconciler/gitlabsource.go:139-225 | `reconcile` refines the protocol; the cached object is outside its frame |
| Reconcilers.Reconciler.FinalizeSource | pkg/reconciler/gitlabsource.go:227-259 | `finalize` refines the protocol; the cached object is outside its frame |
| Reconcilers.Reconciler.SaveStatus | pkg/reconciler/gitlabsource.go:451-453 | the cached object is overwritten in place before the call, and stays so whatever the call returns |
| Reconcilers.Reconciler.UpdateStatus | pkg/reconciler/gitlabsource.go:445-456 | refines the protocol: the lister's current object is compared and written, of the cached object only the status |
| Reconcilers.Reconciler.SaveFinalizers | pkg/reconciler/gitlabsource.go:464-466 | likewise for the finalizers |
| Reconcilers.Reconciler.Update | pkg/reconciler/gitlabsource.go:458-469 | refines the protocol; of the cached object only the finalizers are written |
| Reconcilers.Reconciler.WriteBack | pkg/reconciler/gitlabsource.go:123-136 | status before finalizers, an error of the first skips the second, also when the original is the object being overwritten |
| Reconcilers.Reconciler.WorkOnCopy | pkg/reconciler/gitlabsource.go:106-121 | nothing that can be reached from the cached object changes while the copy is worked on |
| Reconcilers.Reconciler.Reconcile | pkg/reconciler/gitlabsource.go:86-137 | one run refines `Protocol.Reconcile`; its frame lets it write only status and finalizers of the cached object |
| HookTheorems.RunDebt | pkg/reconciler/gitlabsource.go:116-136 | one run adds to the hook debt at most its own error, one more for a double fault (the registration lost its reply, and the run newly left the cache with a finalizer that the server lacks), and one more if the source was made anew and delivered between its writes while it held a new hook; from every state and under every interference that keeps the URL |
| HookTheorems.HookAccounting | pkg/reconciler/gitlabsource.go:86-258 | after every history with a fixed URL, live hooks of the controller that the server does not record number at most the failed runs, plus the double faults among them, plus the registering runs whose source was replaced between their writes |
| HookTheorems.DoubleFaultsFail | pkg/reconciler/gitlabsource.go:123-136 | a double fault is always a failed run |
| HookTheorems.ExecDebt | pkg/reconciler/gitlabsource.go:86-258 | every history with a fixed URL keeps the hook invariant, and its debt is paid for by failed runs, double faults and replacements |
| ReadYourWrites.NothingReplaced | pkg/reconciler/gitlabsource.go:445-469 | no registering run is replaced as long as no source is created between the two writes of a run |
| HookLeaks.LostReplyLeaksTwo | pkg/reconciler/gitlabsource.go:209-221 | failed runs alone are no bound: from every initial world a history with one failed run and two leaked hooks |
| ExactLeaks.TwoHooksIff | pkg/reconciler/gitlabsource.go:209-221 | an undisturbed run raises the debt by two if and only if the reply of its registration is lost and its finalizer write is refused or in conflict, nobody having the finalizer yet; then one more hook is unrecorded and the cached object claims the finalizer falsely; otherwise the debt rises by at most one |
| HookLeaks.RecreationLeaks | pkg/reconciler/gitlabsource.go:445-469 | from every initial world a history without failed run that leaks a hook, when the source is made anew between the writes |
| ExactLeaks.SilentLeakIff | pkg/reconciler/gitlabsource.go:445-469 | from every state a registering run that returns nil leaves its live hook unrecorded if and only if the source is lost between its writes: gone, if it has no finalizers to write, else made anew and delivered; the second only, if the cached object made no false claim |
| ReadYourWrites.ReadsItsWrites | pkg/reconciler/gitlabsource.go:445-456 | over every history an ID that the server stores is carried by the cached object and by every version still to be delivered, except by a deleted object whose ID was cleared |
| ReadYourWrites.RegistersOnlyWithoutHook | pkg/reconciler/gitlabsource.go:209-221 | a run that registers a hook started when the server stored no ID |
| ReadYourWrites.NoSecondHook | pkg/reconciler/gitlabsource.go:209-221 | over every history no second Create while an ID is stored, whatever became of the URL and of the hook |
| ReadYourWrites.RemovedHookIsNotReplaced | pkg/reconciler/gitlabsource.go:209-221 | so a hook that was removed in GitLab is not registered again while its ID is stored, whatever happens after the removal |
| ReadYourWrites.LiveHooksBound | pkg/reconciler/gitlabsource.go:86-258 | after every history with a fixed URL live hooks number at most one, plus two for every failed run, plus one for every replaced registering run |
| ReadYourWrites.ErrorFree | pkg/reconciler/gitlabsource.go:116-136 | after every history with a fixed URL, without a failed run and without a replaced registering run: live hooks are among the one recorded ID, a recorded live hook has our finalizer, and none is left when the object is gone |
| CleanHistories.RunClean | pkg/reconciler/gitlabsource.go:116-136 | a run without error, whatever happens during it, keeps cache, undelivered versions and server agreed on one ID, and that ID protected by the finalizer |
| CleanHistories.CleanIfErrorFree | pkg/reconciler/gitlabsource.go:123-136 | after every history without a failed run a non-empty ID comes with our finalizer on the server, hook alive or not, the cache has the server's ID, and it claims no finalizer that the server lacks |
| Bookkeeping.RunBooks | pkg/reconciler/gitlabsource.go:167-221 | a run registers at most one hook, only from a live cached object without ID; a lost reply makes it fail; a Service only comes with a Deployment |
| Bookkeeping.HistoryBooks | pkg/reconciler/gitlabsource.go:167-221 | over every history lost replies are among the failed runs, and Services never outnumber Deployments |
| LiveRuns.MissingAccessToken | pkg/reconciler/gitlabsource.go:142-146 | a run that finds no access token: SecretsProvided and Ready are False with `AccessTokenNotFound` and the error's text, in the cached object and, if the write is accepted, on the server; the run returns an error and creates nothing |
| LiveRuns.MissingSecretToken | pkg/reconciler/gitlabsource.go:147-151 | likewise for the secret token, with `SecretTokenNotFound` |
| LiveRuns.UnresolvedSink | pkg/reconciler/gitlabsource.go:152-160 | likewise for the sink: SecretsProvided is True, SinkProvided and Ready are False with `NotFound` |
| LiveRuns.ChildrenMade | pkg/reconciler/gitlabsource.go:169-189 | without a receiver, whatever happens in the gaps: the Deployment that the source asks for unless its creation is refused, then the Service unless its creation is refused; an unanswered Deployment is an error, an unanswered Service is not |
| LiveRuns.RunMakesChildren | pkg/reconciler/gitlabsource.go:169-189 | the same over a whole run: exactly one new Deployment and one new Service, with namespace, name prefix, labels, owner, image, sink, secret and account |
| LiveRuns.FirstRunMakesBoth | pkg/reconciler/gitlabsource.go:169-189 | when both calls are answered and nobody else acts, one Deployment and one Service are added, and the next lookups find them |
| LiveRuns.RegisteredHook | pkg/reconciler/gitlabsource.go:201-221 | whatever happens in the gaps, the hook that a run registers has the scheme and verification that `secure` says, address and node port of the last qualifying Service listed, the secret found, exactly the listed event types, and the project of the URL |
| LiveRuns.LiveOutcome | pkg/reconciler/gitlabsource.go:139-225 | exactly when the body of a live run panics, and exactly when it succeeds; when it asks for our finalizer, and when it stores an ID |
| LiveRuns.LiveRunEnds | pkg/reconciler/gitlabsource.go:86-137 | a run takes the process down exactly when its body does, and returns nil only if every call on its way is answered |
| LiveRuns.NothingToSend | pkg/reconciler/gitlabsource.go:123-131 | what is as it was read is not written, whatever became of the cached object, nor what the cached object has by then |
| LiveRuns.GoneMeanwhileFails | pkg/reconciler/gitlabsource.go:445-469 | what has changed and finds no cached object to write makes the run return an error |
| LiveRuns.RefusedStatusStops | pkg/reconciler/gitlabsource.go:123-129 | a refused status write leaves the finalizers alone, in the cached object and on the server |
| LiveRuns.GoneIsQuiet | pkg/reconciler/gitlabsource.go:92-104 | a source that is gone is left alone by any number of runs, and each returns nil |
| Receivers.LookupIsComplete | pkg/reconciler/gitlabsource.go:374-395 | in every reachable state the lookup by labels and owner misses no Deployment that the source's UID controls |
| Receivers.AtMostOneReceiver | pkg/reconciler/gitlabsource.go:167-189 | over every history at most one Deployment for each UID, lost replies of Create included |
| Convergence.StableWriteBack | pkg/reconciler/gitlabsource.go:123-136 | the status write always lands; the finalizer write lands or conflicts with it |
| Convergence.RankZero | pkg/reconciler/gitlabsource.go:139-225 | rank zero is exactly: receiver there, status settled, ID stored, our finalizer in a canonical list; ready iff the sink resolved to something |
| Convergence.RoundConverges | pkg/reconciler/gitlabsource.go:86-225 | in a stable environment a run and a cache refresh lower the rank, conflict or not; at rank zero the run returns nil and changes nothing |
| Convergence.FourRoundsSuffice | pkg/reconciler/gitlabsource.go:86-225 | from every live state four rounds complete the source, with other clients busy between them |
| Convergence.StableVisitsExist | pkg/reconciler/gitlabsource.go:86-225 | that hypothesis can be met from every live state of a source with secrets and a parsable URL |
| Convergence.RemovedHookGoesUnnoticed | pkg/reconciler/gitlabsource.go:209-221 | a completed source whose hook is removed in GitLab stays as it is: the run returns nil and changes nothing |
| Convergence.RegisteringConflicts | pkg/reconciler/gitlabsource.go:123-135 | the registering run returns nil if and only if its first write is delivered before its second |
| Convergence.ReceiverGetsTheSink | pkg/reconciler/resources/service.go:35-77 | the receiver that a stable run creates sends to the sink the same run resolved, with the source's secret and account |
| Convergence.SinkChangeIsNotPropagated | pkg/reconciler/gitlabsource.go:167-192 | with a receiver present four rounds make status and readiness follow a new sink, while every Deployment stays as it is |
| Convergence.RedirectedReceiverStays | pkg/reconciler/gitlabsource.go:157-192 | it happens: every source with receiver and load balancer, redirected to any address, is ready there after four quiet rounds, its Deployments unchanged |
| Finalization.FinalizeOutcome | pkg/reconciler/gitlabsource.go:227-259 | for every outcome of its calls: our finalizer goes, all others stay, the ID is cleared iff nothing failed, a further finalize does nothing, and exactly when it panics |
| Finalization.HookRemovedIff | pkg/reconciler/gitlabsource.go:233-257 | with every call answered the hook is removed if and only if the URL still addresses its project; the ID is cleared anyway |
| Finalization.DeletedRound | pkg/reconciler/gitlabsource.go:227-231 | a round on a deleted source removes the finalizer or comes strictly closer to it |
| Finalization.ThreeRoundsUnblock | pkg/reconciler/gitlabsource.go:227-231 | three rounds whose writes work take our finalizer off the server, whatever GitLab answers, if `finalize` does not panic and a failing lookup keeps its text |
| Finalization.FinalizerStaysIff | pkg/reconciler/gitlabsource.go:116-136 | a round whose writes work leaves our finalizer if and only if `finalize` panics, or the first write is not delivered before the second and there is one: an ID is stored, and either the token is found and `Delete` answers, or it is missing with a text not yet in the conditions |
| Finalization.PanicBlocksDeletion | pkg/reconciler/gitlabsource.go:227-259 | with an ID stored and the token selector removed, or the path of the URL empty while the token is found, no number of rounds changes the stored object |
| Finalization.NewTextsBlockDeletion | pkg/reconciler/gitlabsource.go:233-241 | a lookup that fails with ever new texts keeps our finalizer for any number of rounds |
| Finalization.CaughtUp | pkg/reconciler/gitlabsource.go:86-137 | every reachable world whose cache has caught up is one the theorems about rounds start from |
| Finalization.EditedUrlLeaksIff | pkg/reconciler/gitlabsource.go:243-256 | after an edit of the URL and a deletion, a successful final run leaks the hook if and only if the address changed |
| Finalization.EditedUrlLeaks | pkg/reconciler/gitlabsource.go:243-256 | from every initial world a history without failed run that ends like this |
| LostWrites.RefusalHides | pkg/reconciler/gitlabsource.go:464-466 | a refused Update leaves the wanted list in the cached object and the old one on the server |
| LostWrites.RefusedWriteIsNotRetried | pkg/reconciler/gitlabsource.go:130-131 | then no number of runs without delivery or panic changes the finalizers on the server |
| LostWrites.RefusedStatusIsNotRetried | pkg/reconciler/gitlabsource.go:123-129 | a refused status write leaves the ID in the cached object only: runs that find secrets and sink as before neither write it nor register another hook, and a delivery or restart takes it away |
| LostWrites.HiddenStatusIsSilent | pkg/reconciler/gitlabsource.go:123-136 | in that state a run with receiver, address and finalizer in place returns nil and changes nothing |
| LostWrites.ForeignFinalizerKeptIff | pkg/reconciler/gitlabsource.go:464-466 | after an accepted write a foreign finalizer is on the server if and only if the object the run read had it |
| LostWrites.RefusedServiceStrands | pkg/reconciler/gitlabsource.go:185-188 | a refused Service leaves the source with its Deployment and no Service, and the run returns nil |
| LostWrites.ServiceIsNotRetried | pkg/reconciler/gitlabsource.go:167-208 | then no run creates a Service and no run of the live source succeeds, until somebody else helps |
| LostWrites.RefusedServiceIsForEver | pkg/reconciler/gitlabsource.go:167-208 | both together: the first run with a refused Service returns nil, no later run creates a Service, and none of the live source succeeds |
| Shadows.ActionIsEnvironment | pkg/reconciler/gitlabsource.go:86-137 | whatever one source's run does, another source sees events of the environment only |
| Fleet.Projects | pkg/reconciler/gitlabsource.go:86-137 | each source's share of a history of many sources is a history of that source alone: its own moves in their order, and between them events of the environment; double faults and replacements are its own |
| Fleet.FleetAccounting | pkg/reconciler/gitlabsource.go:86-258 | hook accounting and the error-free clause for each source of a fleet, with its own failed runs, double faults and replacements |
| Fleet.FleetSafety | pkg/reconciler/gitlabsource.go:86-225 | for each source of a fleet over all histories: the receiver invariant, a stored ID comes with our finalizer if none of its runs failed, and hooks and UIDs of different sources never mix |
| Fleet.RunsDoNotInterfere | pkg/reconciler/gitlabsource.go:86-137 | a run leaves every other source's server object, cached object, ledger, Deployments and hooks as they are |

## Left out

- HookTheorems.HookAccounting: bounds by failed runs, double faults and replaced registering runs, for a fixed project URL; failed runs alone are no bound (`LostReplyLeaksTwo`, `RecreationLeaks`), and without the fixed URL it is false (`EditedUrlLeaks`).
- ReadYourWrites.ErrorFree: needs the fixed URL and no replaced registering run, for the same reasons; `CleanIfErrorFree` needs neither.
- Finalization.ThreeRoundsUnblock: needs a `finalize` that does not panic and a lookup error that keeps its text, because otherwise it is false (`PanicBlocksDeletion`, `NewTextsBlockDeletion`); `FinalizerStaysIff` has the exact condition round by round.
- ExactLeaks.TwoHooksIff: is about runs in which nobody else acts; for all others `RunDebt` has the upper bound.
- Convergence.FourRoundsSuffice: a stable round has no interference inside a run except deliveries between the two writes.
- ProjectUrls.BaseIsPrefix: `url.Parse` is modelled as far as the path; validation of the authority, of user information and of control characters is not.
- UrlBranches.WebUrl: likewise, so it speaks of every host, also of those that `url.Parse` refuses.
- LiveRuns.RunMakesChildren: for runs without events in the gaps of the two writes; `ChildrenMade` has the body with all gaps.
- Fleet.RunsDoNotInterfere: for runs without environment events inside; with such events, `ActionIsEnvironment` says what others see.
- Nil and empty slices are the same value, so an update that would only turn one into the other is not made.
- Condition severity, sub-second clock differences inside one run, and `observedGeneration`.
- `sort.Slice` on conditions of equal type: the lists never have two of one type.
- Metadata other than namespace, name, UID, version, deletion mark and finalizers; container and selector details of the Deployment, and the Service's ports other than the node port.
- Secrets, sinks and the GitLab access token are looked up by the oracle; the contents of the lookup, `getSinkURI` included, are foreign code.
- Errors of `SplitMetaNamespaceKey`, `meta.Accessor` and `SetControllerReference`.
- Events, logging, metrics, leader election, work queue back-off and rate limits.
- The generated clientset, informers and listers, the admission webhook, `SetDefaults` and `Validate`, the command entry points.
- The adapter's HTTP server, payload dispatch and CloudEvents; only its URL rewriting is modelled.
