/**
 The webhook client over GitLab's set of project hooks.

 Hook IDs are handed out by GitLab and never reused. A remote call may be applied, refused, or
 applied with its reply lost, which the caller sees as an error.
 */
module Hooks {
  import opened Outcomes
  import opened Numerals
  import opened ProjectUrls

  datatype Reply = Done | Lost | Refused

  datatype EventFlags = EventFlags(
    pushEvents: bool,
    issuesEvents: bool,
    confidentialIssuesEvents: bool,
    mergeRequestsEvents: bool,
    tagPushEvents: bool,
    pipelineEvents: bool,
    wikiPageEvents: bool,
    jobEvents: bool,
    noteEvents: bool)

  /** What is registered with a hook besides its address. */
  datatype HookConfig = HookConfig(url: string, token: string, events: EventFlags, sslVerification: bool)

  datatype Hook = Hook(id: int, address: Address, config: HookConfig)

  /** `issued` are all IDs ever handed out. */
  datatype GitLab = GitLab(hooks: seq<Hook>, issued: set<int>)

  function LiveIds(g: GitLab): set<int> { set h | h in g.hooks :: h.id }

  predicate DistinctIds(hooks: seq<Hook>) {
    forall i, j :: 0 <= i < j < |hooks| ==> hooks[i].id != hooks[j].id
  }

  predicate ValidGitLab(g: GitLab) {
    DistinctIds(g.hooks) && LiveIds(g) <= g.issued
  }

  /** `ListProjectHooks`: every hook of the project. */
  function Listing(hooks: seq<Hook>, a: Address): seq<Hook> {
    if hooks == [] then []
    else if hooks[0].address == a then [hooks[0]] + Listing(hooks[1..], a)
    else Listing(hooks[1..], a)
  }

  function WithoutHook(hooks: seq<Hook>, a: Address, id: int): seq<Hook> {
    if hooks == [] then []
    else if hooks[0].address == a && hooks[0].id == id then WithoutHook(hooks[1..], a, id)
    else [hooks[0]] + WithoutHook(hooks[1..], a, id)
  }

  predicate Registered(hooks: seq<Hook>, a: Address, id: int) {
    exists h :: h in hooks && h.address == a && h.id == id
  }

  /** GitLab's side of adding a hook: a fresh 64-bit ID, or a refusal. */
  function AddProjectHook(g: GitLab, a: Address, id: int, config: HookConfig, reply: Reply): (GitLab, bool) {
    if reply.Refused? || id in g.issued || !IsInt64(id) then (g, false)
    else (GitLab(g.hooks + [Hook(id, a, config)], g.issued + {id}), reply.Done?)
  }

  /** GitLab's side of deleting a hook. */
  function DeleteProjectHook(g: GitLab, a: Address, id: int, reply: Reply): (GitLab, bool) {
    if reply.Refused? || !Registered(g.hooks, a, id) then (g, false)
    else (g.(hooks := WithoutHook(g.hooks, a, id)), reply.Done?)
  }

  /** `Create` for an empty stored ID: the new state and the string to store, or an error. */
  function Create(g: GitLab, a: Address, id: int, config: HookConfig, reply: Reply): (GitLab, Option<string>) {
    var r := AddProjectHook(g, a, id, config, reply);
    (r.0, if r.1 then Some(Itoa(id)) else None)
  }

  /** `Create` for any stored ID: a hook that is still registered is not added again. */
  function CreateOrFind(g: GitLab, a: Address, webhookID: string, id: int, config: HookConfig, listFails: bool, reply: Reply)
    : (GitLab, Option<string>)
  {
    if webhookID == "" then Create(g, a, id, config, reply)
    else
      match Atoi(webhookID)
      case None => (g, None)
      case Some(stored) =>
        if listFails then (g, None)
        else if Registered(g.hooks, a, stored) then (g, Some(webhookID))
        else Create(g, a, id, config, reply)
  }

  /** `Delete`: the new state and whether it returned without error. */
  function Delete(g: GitLab, a: Address, webhookID: string, listFails: bool, reply: Reply): (GitLab, bool) {
    if webhookID == "" then (g, true)
    else
      match Atoi(webhookID)
      case None => (g, false)
      case Some(id) =>
        if listFails then (g, false)
        else if Registered(g.hooks, a, id) then DeleteProjectHook(g, a, id, reply)
        else (g, true)
  }

  // ---------- The client, with its loops ----------

  /** The remote GitLab instance behind the client library. */
  class GitLabServer {
    var state: GitLab

    constructor (g: GitLab)
      ensures state == g
    {
      state := g;
    }

    method ListProjectHooks(a: Address, fails: bool) returns (r: Option<seq<Hook>>)
      ensures r == if fails then None else Some(Listing(state.hooks, a))
    {
      r := if fails then None else Some(Listing(state.hooks, a));
    }

    method AddHook(a: Address, id: int, config: HookConfig, reply: Reply) returns (ok: bool)
      modifies this
      ensures (state, ok) == AddProjectHook(old(state), a, id, config, reply)
    {
      var r := AddProjectHook(state, a, id, config, reply);
      state := r.0;
      ok := r.1;
    }

    method DeleteHook(a: Address, id: int, reply: Reply) returns (ok: bool)
      modifies this
      ensures (state, ok) == DeleteProjectHook(old(state), a, id, reply)
    {
      var r := DeleteProjectHook(state, a, id, reply);
      state := r.0;
      ok := r.1;
    }

    /**
     Looks for the hook of a stored ID, and adds one if there is none. The ID that it returns is the one of a
     hook registered at that address; all other hooks stay, and at most one is added.
     */
    method ClientCreate(a: Address, webhookID: string, newId: int, config: HookConfig, listFails: bool, reply: Reply)
      returns (hookID: Option<string>)
      requires ValidGitLab(state)
      modifies this
      ensures (state, hookID) == CreateOrFind(old(state), a, webhookID, newId, config, listFails, reply)
      ensures hookID.Some? ==> Atoi(hookID.value).Some? && Registered(state.hooks, a, Atoi(hookID.value).value)
      ensures state.hooks == old(state).hooks || state.hooks == old(state).hooks + [Hook(newId, a, config)]
    {
      if webhookID != "" {
        var stored := Atoi(webhookID);
        if stored.None? { return None; }
        var listed := ListProjectHooks(a, listFails);
        if listed.None? { return None; }
        ListingFacts(state.hooks, a);
        var hooks := listed.value;
        for i := 0 to |hooks|
          invariant state == old(state)
          invariant forall j :: 0 <= j < i ==> hooks[j].id != stored.value
        {
          if hooks[i].id == stored.value {
            assert hooks[i] in hooks;
            return Some(webhookID);
          }
        }
        assert !Registered(state.hooks, a, stored.value);
      }
      var ok := AddHook(a, newId, config, reply);
      hookID := if ok then Some(Itoa(newId)) else None;
      if ok {
        AtoiItoa(newId);
        assert state.hooks[|old(state).hooks|] == Hook(newId, a, config);
      }
    }

    /** The loop has no early exit on success; listed IDs are distinct, so at most one iteration deletes. */
    method ClientDelete(a: Address, webhookID: string, listFails: bool, reply: Reply) returns (ok: bool)
      requires ValidGitLab(state)
      modifies this
      ensures (state, ok) == Delete(old(state), a, webhookID, listFails, reply)
    {
      if webhookID != "" {
        var hookID := Atoi(webhookID);
        if hookID.None? { return false; }
        var listed := ListProjectHooks(a, listFails);
        if listed.None? { return false; }
        ListingFacts(state.hooks, a);
        var hooks, i := listed.value, 0;
        while i < |hooks|
          invariant 0 <= i <= |hooks|
          invariant forall j :: i <= j < |hooks| && hooks[j].id == hookID.value ==> state == old(state)
          invariant if exists j :: 0 <= j < i && hooks[j].id == hookID.value
                    then (state, true) == DeleteProjectHook(old(state), a, hookID.value, reply)
                    else state == old(state)
        {
          if hooks[i].id == hookID.value {
            ok := DeleteHook(a, hookID.value, reply);
            if !ok { assert hooks[i] in hooks; return false; }
          }
          i := i + 1;
        }
        assert Registered(old(state).hooks, a, hookID.value) <==> exists j :: 0 <= j < |hooks| && hooks[j].id == hookID.value;
      }
      return true;
    }
  }

  lemma {:induction false} ListingFacts(hooks: seq<Hook>, a: Address)
    requires DistinctIds(hooks)
    ensures DistinctIds(Listing(hooks, a))
    ensures forall h :: h in Listing(hooks, a) <==> h in hooks && h.address == a
  {
    if hooks != [] {
      ListingFacts(hooks[1..], a);
      assert hooks == [hooks[0]] + hooks[1..];
      var r := Listing(hooks[1..], a);
      forall j | 0 <= j < |r| ensures r[j].id != hooks[0].id {
        assert r[j] in hooks[1..];
      }
    }
  }

  lemma {:induction false} WithoutHookFacts(hooks: seq<Hook>, a: Address, id: int)
    requires DistinctIds(hooks)
    ensures DistinctIds(WithoutHook(hooks, a, id))
    ensures forall h :: h in WithoutHook(hooks, a, id) <==> h in hooks && !(h.address == a && h.id == id)
  {
    if hooks != [] {
      WithoutHookFacts(hooks[1..], a, id);
      assert hooks == [hooks[0]] + hooks[1..];
      var r := WithoutHook(hooks[1..], a, id);
      forall j | 0 <= j < |r| ensures r[j].id != hooks[0].id {
        assert r[j] in hooks[1..];
      }
    }
  }

  lemma {:induction false} WithoutAbsent(hooks: seq<Hook>, a: Address, id: int)
    requires forall h :: h in hooks ==> h.id != id
    ensures WithoutHook(hooks, a, id) == hooks
    ensures forall h :: WithoutHook(hooks + [h], a, id) == if h.address == a && h.id == id then hooks else hooks + [h]
  {
    if hooks == [] {
      forall h: Hook ensures WithoutHook([] + [h], a, id) == if h.address == a && h.id == id then [] else [h] {
        assert [h][1..] == [] && [] + [h] == [h];
        assert WithoutHook([], a, id) == [];
      }
    } else {
      assert hooks[0] in hooks;
      assert hooks == [hooks[0]] + hooks[1..];
      WithoutAbsent(hooks[1..], a, id);
      forall h ensures WithoutHook(hooks + [h], a, id) == if h.address == a && h.id == id then hooks else hooks + [h] {
        assert (hooks + [h])[1..] == hooks[1..] + [h];
        assert WithoutHook(hooks[1..] + [h], a, id) == if h.address == a && h.id == id then hooks[1..] else hooks[1..] + [h];
        assert [hooks[0]] + (hooks[1..] + [h]) == hooks + [h];
      }
    }
  }

  lemma AddFacts(g: GitLab, a: Address, id: int, config: HookConfig, reply: Reply)
    requires ValidGitLab(g)
    ensures var r := AddProjectHook(g, a, id, config, reply);
      && ValidGitLab(r.0) && g.issued <= r.0.issued
      && (r.0 == g || (!reply.Refused? && IsInt64(id) && id !in g.issued && r.0.hooks == g.hooks + [Hook(id, a, config)]
                       && LiveIds(r.0) == LiveIds(g) + {id} && r.0.issued == g.issued + {id}))
      && (r.1 ==> r.0 != g)
  {
    var r := AddProjectHook(g, a, id, config, reply);
    if r.0 != g {
      forall x | x in g.hooks ensures x.id != id {
        assert x.id in LiveIds(g);
      }
      LiveIdsAppend(g.hooks, Hook(id, a, config), g.issued, r.0.issued);
    }
  }

  lemma LiveIdsAppend(hooks: seq<Hook>, h: Hook, i1: set<int>, i2: set<int>)
    ensures LiveIds(GitLab(hooks + [h], i2)) == LiveIds(GitLab(hooks, i1)) + {h.id}
  {
    assert h in hooks + [h];
    forall x | x in hooks ensures x in hooks + [h] {
    }
  }

  /** Creating again with the ID that `Create` returned finds the hook and changes nothing, until it is deleted; then a new one is added. */
  lemma CreateIsIdempotent(g: GitLab, a: Address, id: int, id2: int, config: HookConfig, config2: HookConfig)
    requires ValidGitLab(g) && IsInt64(id) && id !in g.issued && IsInt64(id2) && id2 !in g.issued && id2 != id
    ensures var c := Create(g, a, id, config, Done);
      && CreateOrFind(c.0, a, c.1.value, id2, config2, false, Done) == (c.0, c.1)
      && var d := Delete(c.0, a, c.1.value, false, Done).0;
         CreateOrFind(d, a, c.1.value, id2, config2, false, Done).1 == Some(Itoa(id2))
  {
    AtoiItoa(id);
    CreateThenDelete(g, a, id, config);
    var c := Create(g, a, id, config, Done);
    assert c.0.hooks[|g.hooks|] == Hook(id, a, config);
    NotRegisteredBefore(g, a, id);
  }

  lemma NotRegisteredBefore(g: GitLab, a: Address, id: int)
    requires ValidGitLab(g) && id !in g.issued
    ensures !Registered(g.hooks, a, id)
  {
    forall h | h in g.hooks ensures h.id != id { assert h.id in LiveIds(g); }
  }

  /** Deleting with the string that `Create` returned restores the hook list, whatever else is registered. */
  lemma CreateThenDelete(g: GitLab, a: Address, id: int, config: HookConfig)
    requires ValidGitLab(g) && IsInt64(id) && id !in g.issued
    ensures var c := Create(g, a, id, config, Done);
      && c.1.Some? && ValidGitLab(c.0) && LiveIds(c.0) == LiveIds(g) + {id}
      && var d := Delete(c.0, a, c.1.value, false, Done);
         d.1 && d.0.hooks == g.hooks
  {
    AddFacts(g, a, id, config, Done);
    var h := Hook(id, a, config);
    var hooks := g.hooks + [h];
    assert h in hooks && Registered(hooks, a, id);
    AtoiItoa(id);
    forall x | x in g.hooks ensures x.id != id {
      assert x.id in LiveIds(g);
    }
    WithoutAbsent(g.hooks, a, id);
    assert WithoutHook(hooks, a, id) == g.hooks;
  }

  /**
   `Delete` keeps other hooks; after a success, or a lost reply, the hook is gone from that address; repeating
   it succeeds and changes nothing.
   */
  lemma DeleteFacts(g: GitLab, a: Address, webhookID: string, listFails: bool, reply: Reply)
    requires ValidGitLab(g)
    ensures var d := Delete(g, a, webhookID, listFails, reply);
      && ValidGitLab(d.0) && d.0.issued == g.issued
      && (forall h :: h in d.0.hooks ==> h in g.hooks)
      && (forall h :: h in g.hooks && !(h.address == a && Atoi(webhookID) == Some(h.id)) ==> h in d.0.hooks)
      && (d.1 ==> forall h :: h in d.0.hooks ==> !(h.address == a && webhookID != "" && Atoi(webhookID) == Some(h.id)))
      && (d.1 ==> Delete(d.0, a, webhookID, false, reply) == (d.0, true))
  {
    if Atoi(webhookID).Some? {
      WithoutHookFacts(g.hooks, a, Atoi(webhookID).value);
    }
  }

  /**
   Deleting at another address than the hook's is a success that leaves the hook behind: removal needs the
   right address.
   */
  lemma DeleteNeedsAddress(g: GitLab, h: Hook, a: Address, reply: Reply)
    requires ValidGitLab(g) && h in g.hooks && IsInt64(h.id)
    ensures var d := Delete(g, a, Itoa(h.id), false, reply);
      d.1 ==> (h !in d.0.hooks <==> h.address == a)
  {
    AtoiItoa(h.id);
    DeleteFacts(g, a, Itoa(h.id), false, reply);
  }

  // ---------- Event options ----------

  /** Each option is set exactly when its event type is requested. */
  function RequestedEvents(eventTypes: seq<string>): EventFlags {
    EventFlags(
      "push_events" in eventTypes,
      "issues_events" in eventTypes,
      "confidential_issues_events" in eventTypes,
      "merge_requests_events" in eventTypes,
      "tag_push_events" in eventTypes,
      "pipeline_events" in eventTypes,
      "wiki_page_events" in eventTypes,
      "job_events" in eventTypes,
      "note_events" in eventTypes)
  }

  /** One more requested event type. */
  function SetFlag(f: EventFlags, event: string): EventFlags {
    EventFlags(
      f.pushEvents || event == "push_events",
      f.issuesEvents || event == "issues_events",
      f.confidentialIssuesEvents || event == "confidential_issues_events",
      f.mergeRequestsEvents || event == "merge_requests_events",
      f.tagPushEvents || event == "tag_push_events",
      f.pipelineEvents || event == "pipeline_events",
      f.wikiPageEvents || event == "wiki_page_events",
      f.jobEvents || event == "job_events",
      f.noteEvents || event == "note_events")
  }

  lemma SetFlagAppends(events: seq<string>, event: string)
    ensures SetFlag(RequestedEvents(events), event) == RequestedEvents(events + [event])
  {
    forall e: string ensures e in events + [event] <==> e in events || event == e {
      AppendMember(events, event, e);
    }
  }

  lemma AppendMember(events: seq<string>, event: string, e: string)
    ensures e in events + [event] <==> e in events || event == e
  {
  }

  /** `projectHookOptions`: what `createWebhook` fills in step by step. */
  class ProjectHookOptions {
    var accessToken: string
    var secretToken: string
    var project: string
    var webhookID: string
    var url: string
    var pushEvents: bool
    var issuesEvents: bool
    var confidentialIssuesEvents: bool
    var mergeRequestsEvents: bool
    var tagPushEvents: bool
    var noteEvents: bool
    var jobEvents: bool
    var pipelineEvents: bool
    var wikiPageEvents: bool
    var enableSSLVerification: bool

    constructor (accessToken: string, secretToken: string)
      ensures this.accessToken == accessToken && this.secretToken == secretToken && url == "" && !enableSSLVerification
      ensures Flags() == RequestedEvents([])
    {
      this.accessToken, this.secretToken, project, webhookID, url := accessToken, secretToken, "", "", "";
      pushEvents, issuesEvents, confidentialIssuesEvents, mergeRequestsEvents, tagPushEvents := false, false, false, false, false;
      noteEvents, jobEvents, pipelineEvents, wikiPageEvents, enableSSLVerification := false, false, false, false, false;
    }

    function Flags(): EventFlags
      reads this
    {
      EventFlags(pushEvents, issuesEvents, confidentialIssuesEvents, mergeRequestsEvents, tagPushEvents, pipelineEvents, wikiPageEvents,
        jobEvents, noteEvents)
    }

    function Config(): HookConfig
      reads this
    {
      HookConfig(url, secretToken, Flags(), enableSSLVerification)
    }

    /** The switch of the option loop, in three parts; its cases exclude each other. */
    method Request(event: string)
      modifies `pushEvents, `issuesEvents, `confidentialIssuesEvents, `mergeRequestsEvents, `tagPushEvents, `noteEvents, `jobEvents,
        `pipelineEvents, `wikiPageEvents
      ensures Flags() == SetFlag(old(Flags()), event)
    {
      RequestIssues(event);
      RequestCode(event);
      RequestOther(event);
    }

    method RequestIssues(event: string)
      modifies `pushEvents, `issuesEvents, `confidentialIssuesEvents
      ensures pushEvents == (old(pushEvents) || event == "push_events")
      ensures issuesEvents == (old(issuesEvents) || event == "issues_events")
      ensures confidentialIssuesEvents == (old(confidentialIssuesEvents) || event == "confidential_issues_events")
    {
      if event == "push_events" { pushEvents := true; }
      if event == "issues_events" { issuesEvents := true; }
      if event == "confidential_issues_events" { confidentialIssuesEvents := true; }
    }

    method RequestCode(event: string)
      modifies `mergeRequestsEvents, `tagPushEvents, `pipelineEvents
      ensures mergeRequestsEvents == (old(mergeRequestsEvents) || event == "merge_requests_events")
      ensures tagPushEvents == (old(tagPushEvents) || event == "tag_push_events")
      ensures pipelineEvents == (old(pipelineEvents) || event == "pipeline_events")
    {
      if event == "merge_requests_events" { mergeRequestsEvents := true; }
      if event == "tag_push_events" { tagPushEvents := true; }
      if event == "pipeline_events" { pipelineEvents := true; }
    }

    method RequestOther(event: string)
      modifies `wikiPageEvents, `jobEvents, `noteEvents
      ensures wikiPageEvents == (old(wikiPageEvents) || event == "wiki_page_events")
      ensures jobEvents == (old(jobEvents) || event == "job_events")
      ensures noteEvents == (old(noteEvents) || event == "note_events")
    {
      if event == "wiki_page_events" { wikiPageEvents := true; }
      if event == "job_events" { jobEvents := true; }
      if event == "note_events" { noteEvents := true; }
    }

    /** The option loop, over any list of event types. */
    method RequestAll(eventTypes: seq<string>)
      requires Flags() == RequestedEvents([])
      modifies `pushEvents, `issuesEvents, `confidentialIssuesEvents, `mergeRequestsEvents, `tagPushEvents, `noteEvents, `jobEvents,
        `pipelineEvents, `wikiPageEvents
      ensures Flags() == RequestedEvents(eventTypes)
    {
      for i := 0 to |eventTypes|
        invariant Flags() == RequestedEvents(eventTypes[..i])
      {
        SetFlagAppends(eventTypes[..i], eventTypes[i]);
        assert eventTypes[..i] + [eventTypes[i]] == eventTypes[..i + 1];
        Request(eventTypes[i]);
      }
      assert eventTypes[..|eventTypes|] == eventTypes;
    }
  }

  /** Order and multiplicity of the requested types do not matter. */
  lemma EventsDependOnMembersOnly(e1: seq<string>, e2: seq<string>)
    requires forall e :: e in e1 <==> e in e2
    ensures RequestedEvents(e1) == RequestedEvents(e2)
  {
  }
}
