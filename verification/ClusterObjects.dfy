/**
 The stores around the reconciler as objects: the API server, the informer with its pointer to the cached
 object, and the GitLab server. `Abs` is the protocol's world.
 */
module ClusterObjects {
  import opened Outcomes
  import opened Hooks
  import opened Protocol
  import opened SourceObjects
  import I = Invariants
  import V = Sources

  class Cluster {
    const remote: GitLabServer
    /** Everything but the cached object and GitLab, whose places in this record are not used. */
    var state: World
    var cached: GitLabSource?

    constructor (w: World)
      ensures Abs() == w && fresh(remote) && (cached != null ==> fresh(cached) && fresh(cached.meta) && fresh(cached.spec) && fresh(cached.status))
    {
      remote := new GitLabServer(w.gitlab);
      state := w;
      cached := null;
      new;
      if w.store.cache.Some? {
        cached := Decode(w.store.cache.value);
      }
    }

    function Abs(): World
      reads this, remote, if cached == null then {} else cached.Storage()
    {
      state.(store := state.store.(cache := if cached == null then None else Some(cached.Value())), gitlab := remote.state)
    }

    /** The informer's object was replaced by a new one, or not at all. */
    twostate predicate Redelivered()
      reads this
    {
      cached == old(cached) || cached == null || (fresh(cached) && fresh(cached.meta) && fresh(cached.spec) && fresh(cached.status))
    }

    /** One step of the environment; a delivery replaces the pointer, not the object. */
    method Happen(e: Event)
      modifies this, remote
      ensures Abs() == EnvStep(old(Abs()), e)
      ensures Redelivered()
    {
      hide EnvStep;
      var w := EnvStep(Abs(), e);
      OnlyDeliveryReplaces(Abs(), e);
      var delivered := w.store.seen != state.store.seen;
      state := w;
      remote.state := w.gitlab;
      if delivered {
        cached := null;
        if w.store.cache.Some? {
          cached := Decode(w.store.cache.value);
        }
      }
    }

    /** Whatever the environment does in a gap of a run. */
    method Pass(es: seq<Event>)
      modifies this, remote
      ensures Abs() == EnvSteps(old(Abs()), es)
      ensures Redelivered()
    {
      for i := 0 to |es|
        invariant EnvSteps(Abs(), es[i..]) == EnvSteps(old(Abs()), es)
        invariant Redelivered()
      {
        assert es[i..][1..] == es[i + 1..];
        Happen(es[i]);
      }
    }

    /** A new process lists the current object. */
    method Restart()
      modifies this
      ensures Abs() == Restarted(old(Abs()))
      ensures Redelivered()
    {
      if state.store.log != [] {
        state := state.(store := state.store.(seen := |state.store.log| - 1));
        cached := null;
        if Server(state.store).Some? {
          cached := Decode(Server(state.store).value);
        }
      }
    }

    // ---------- The API server ----------

    method UpdateStatus(p: GitLabSource, reply: Reply) returns (ok: bool)
      modifies this`state
      ensures var r := ApiUpdateStatus(old(Abs()).store, p.Value(), reply);
        ok == r.1 && Abs() == old(Abs()).(store := r.0)
    {
      hide ApiUpdateStatus;
      var r := ApiUpdateStatus(Abs().store, p.Value(), reply);
      ApiKeepsCache(Abs().store, p.Value(), reply);
      state := state.(store := r.0);
      ok := r.1;
    }

    method Update(p: GitLabSource, reply: Reply) returns (ok: bool)
      modifies this`state
      ensures var r := ApiUpdate(old(Abs()).store, p.Value(), reply);
        ok == r.1 && Abs() == old(Abs()).(store := r.0)
    {
      hide ApiUpdate;
      var r := ApiUpdate(Abs().store, p.Value(), reply);
      ApiKeepsCache(Abs().store, p.Value(), reply);
      state := state.(store := r.0);
      ok := r.1;
    }

    method CreateDeployment(s: V.Source, o: Oracle) returns (ok: bool)
      modifies this`state
      ensures Abs() == AddReceiver(old(Abs()), s, o) && ok == o.createDeployment.Done?
    {
      state := AddReceiver(state, s, o);
      ok := o.createDeployment.Done?;
    }

    method CreateService(s: V.Source, o: Oracle) returns (ok: bool)
      modifies this`state
      ensures Abs() == AddService(old(Abs()), s, o) && ok == o.createService.Done?
    {
      state := AddService(state, s, o);
      ok := o.createService.Done?;
    }

    /** Books the hook that the remote state has and `before` had not. */
    method Book(before: GitLab, id: int, lost: bool)
      modifies this`state
      ensures Abs() == HookCreated(old(Abs()).(gitlab := before), old(Abs()).gitlab, id, lost)
    {
      if remote.state != before {
        state := HookCreated(state.(gitlab := before), remote.state, id, lost);
      }
    }

    method Charge(r: Result)
      modifies this`state
      ensures Abs() == Protocol.Charge(old(Abs()), r)
    {
      state := Protocol.Charge(state, r);
    }
  }

  lemma ApiKeepsCache(st: Store, p: V.Source, reply: Reply)
    ensures ApiUpdateStatus(st, p, reply).0.cache == st.cache && ApiUpdate(st, p, reply).0.cache == st.cache
  {
  }

  lemma OnlyDeliveryReplaces(w: World, e: Event)
    ensures EnvStep(w, e).store.seen == w.store.seen ==> EnvStep(w, e).store.cache == w.store.cache
  {
  }

  lemma {:induction false} EnvStepsValid(w: World, es: seq<Event>)
    requires ValidGitLab(w.gitlab)
    ensures ValidGitLab(EnvSteps(w, es).gitlab)
    decreases |es|
  {
    if es != [] {
      I.GitLabEventFacts(w.gitlab, es[0]);
      EnvStepsValid(EnvStep(w, es[0]), es[1..]);
    }
  }
}
