/**
 Many sources, one controller: every source has its own store and ledger, but Deployments, Services and
 GitLab's hooks are shared. Each source's share of any fleet history is a history of that source alone,
 in which the other sources appear as the environment; so everything proved for one source holds for
 each of them.
 */
module Fleet {
  import opened Outcomes
  import opened Numerals
  import opened Sources
  import opened ProjectUrls
  import opened Hooks
  import opened Resources
  import opened Protocol
  import opened Invariants
  import opened Accounting
  import opened HookTheorems
  import opened CleanHistories
  import opened ReadYourWrites
  import opened Receivers
  import opened Convergence
  import opened LostWrites
  import opened Shadows
  import opened StoredStatuses
  import F = Finalizers

  /** A work queue key. */
  datatype Key = Key(namespace: string, name: string)

  /** What belongs to one source. */
  datatype Share = Share(store: Store, uids: set<nat>, ledger: Ledger)

  datatype Cluster = Cluster(shares: map<Key, Share>, kube: Kube, gitlab: GitLab)

  datatype Move = Move(key: Key, action: Action)

  function View(c: Cluster, k: Key): World
    requires k in c.shares
  {
    var e := c.shares[k];
    World(k.namespace, k.name, e.store, c.kube, c.gitlab, e.uids, e.ledger)
  }

  function PutBack(c: Cluster, k: Key, w: World): Cluster {
    Cluster(c.shares[k := Share(w.store, w.uids, w.ledger)], w.kube, w.gitlab)
  }

  /** The worker takes one key at a time. */
  function Play(c: Cluster, m: Move): Cluster {
    if m.key in c.shares then PutBack(c, m.key, Act(View(c, m.key), m.action)) else c
  }

  function PlayAll(c: Cluster, moves: seq<Move>): Cluster
    decreases |moves|
  {
    if moves == [] then c else PlayAll(Play(c, moves[0]), moves[1..])
  }

  predicate FleetInitial(c: Cluster) {
    ValidGitLab(c.gitlab) && forall k :: k in c.shares ==> c.shares[k] == Share(Store([None], 0, None), {}, Ledger({}, 0, 0, 0, 0))
  }

  /** UIDs are unique in the cluster, and Deployments are made for a source by its own runs only. */
  predicate Proper(c: Cluster, m: Move) {
    forall k :: k in c.shares && k != m.key ==> ActionApart(m.action, c.shares[k].uids)
  }

  predicate ProperAll(c: Cluster, moves: seq<Move>)
    decreases |moves|
  {
    moves == [] || (Proper(c, moves[0]) && ProperAll(Play(c, moves[0]), moves[1..]))
  }

  /** UIDs and booked hooks of different sources are different. */
  ghost predicate FleetSeparate(c: Cluster) {
    && ValidGitLab(c.gitlab)
    && (forall k :: k in c.shares ==>
          c.shares[k].store.log != [] && AllNamed(View(c, k)) && c.shares[k].ledger.created <= c.gitlab.issued)
    && (forall j, k :: j in c.shares && k in c.shares && j != k ==>
          c.shares[j].uids !! c.shares[k].uids && c.shares[j].ledger.created !! c.shares[k].ledger.created)
  }

  lemma FleetStarts(c: Cluster)
    requires FleetInitial(c)
    ensures FleetSeparate(c)
    ensures forall k :: k in c.shares ==> Initial(View(c, k))
  {
  }

  // ---------- One move ----------

  /** What a move does, to its own source and to another one. */
  ghost predicate Moved(c: Cluster, c': Cluster, m: Move, k: Key)
    requires k in c.shares
  {
    && c'.shares.Keys == c.shares.Keys
    && (if k == m.key then View(c', k) == Act(View(c, k), m.action)
        else exists es :: AllShared(es) && View(c', k) == EnvSteps(View(c, k), es))
  }

  /** Another source's share stays apart from the one that moved. */
  lemma OtherShare(c: Cluster, m: Move, k: Key)
    requires FleetSeparate(c) && Proper(c, m) && m.key in c.shares && k in c.shares && k != m.key
    ensures var w' := Act(View(c, m.key), m.action);
      && c.shares[k].uids !! w'.uids && c.shares[k].ledger.created !! w'.ledger.created && c.shares[k].ledger.created <= w'.gitlab.issued
  {
    hide Act, Shadowed, AllNamed, ActionApart;
    var w := View(c, m.key);
    assert AllNamed(w) && w.store.log != [];
    ActionIsEnvironment(w, m.action, c.shares[k].uids);
  }

  lemma MoveSeparates(c: Cluster, m: Move)
    requires FleetSeparate(c) && Proper(c, m) && m.key in c.shares
    ensures FleetSeparate(Play(c, m))
  {
    hide Act, AllNamed, Proper;
    var w, c' := View(c, m.key), Play(c, m);
    OwnShare(w, m.action);
    forall k | k in c.shares && k != m.key
      ensures AllNamed(View(c', k)) && c'.shares[k].uids !! c'.shares[m.key].uids
      ensures c'.shares[k].ledger.created !! c'.shares[m.key].ledger.created && c'.shares[k].ledger.created <= c'.gitlab.issued
    {
      OtherShare(c, m, k);
      SameNames(View(c, k), View(c', k));
    }
    SameNames(Act(w, m.action), View(c', m.key));
  }

  lemma SameNames(w: World, w': World)
    requires AllNamed(w) && w'.store == w.store && w'.uids == w.uids && w'.namespace == w.namespace && w'.name == w.name
    ensures AllNamed(w')
  {
  }

  lemma OwnShare(w: World, a: Action)
    requires ValidGitLab(w.gitlab) && w.store.log != [] && AllNamed(w) && w.ledger.created <= w.gitlab.issued
    ensures var w' := Act(w, a);
      && ValidGitLab(w'.gitlab) && w'.store.log != [] && AllNamed(w') && w'.ledger.created <= w'.gitlab.issued
      && w'.namespace == w.namespace && w'.name == w.name
  {
    NothingToRespect(a);
    ActionIsEnvironment(w, a, {});
  }

  lemma MoveIsSeen(c: Cluster, m: Move, k: Key)
    requires FleetSeparate(c) && Proper(c, m) && m.key in c.shares && k in c.shares
    ensures Moved(c, Play(c, m), m, k)
  {
    var w, c' := View(c, m.key), Play(c, m);
    var w' := Act(w, m.action);
    hide Act, AllNamed;
    OwnShare(w, m.action);
    if k != m.key {
      var others := c.shares[k].uids;
      ActionIsEnvironment(w, m.action, others);
      var es :| AllShared(es) && SeenAs(w, w', es, others);
      var v := View(c, k);
      assert EnvSteps(v, es) == v.(kube := w'.kube, gitlab := w'.gitlab);
    }
  }

  // ---------- Projection ----------

  function Wrapped(es: seq<Event>): seq<Action>
    ensures |Wrapped(es)| == |es| && forall i :: 0 <= i < |es| ==> Wrapped(es)[i] == Environment(es[i])
  {
    if es == [] then [] else [Environment(es[0])] + Wrapped(es[1..])
  }

  lemma {:induction false} ExecWrapped(w: World, es: seq<Event>)
    ensures Exec(w, Wrapped(es)) == EnvSteps(w, es)
    decreases |es|
  {
    if es != [] {
      assert Wrapped(es)[1..] == Wrapped(es[1..]);
      ExecWrapped(EnvStep(w, es[0]), es[1..]);
    }
  }

  /** The actions of one source's moves, in their order. */
  function OwnActions(moves: seq<Move>, k: Key): seq<Action> {
    if moves == [] then []
    else if moves[0].key == k then [moves[0].action] + OwnActions(moves[1..], k)
    else OwnActions(moves[1..], k)
  }

  /** `actions` are the actions `own`, in their order, with events that touch no source in between. */
  ghost predicate Weaves(actions: seq<Action>, own: seq<Action>)
    decreases |actions|
  {
    if actions == [] then own == []
    else
      || (own != [] && actions[0] == own[0] && Weaves(actions[1..], own[1..]))
      || (actions[0].Environment? && Shared(actions[0].event) && Weaves(actions[1..], own))
  }

  lemma {:induction false} WeavesJoin(a: seq<Action>, x: seq<Action>, b: seq<Action>, y: seq<Action>)
    requires Weaves(a, x) && Weaves(b, y)
    ensures Weaves(a + b, x + y)
    decreases |a|
  {
    if a == [] {
      assert a + b == b && x + y == y;
    } else {
      assert (a + b)[1..] == a[1..] + b;
      if x != [] && a[0] == x[0] && Weaves(a[1..], x[1..]) {
        WeavesJoin(a[1..], x[1..], b, y);
        assert (x + y)[1..] == x[1..] + y;
      } else {
        WeavesJoin(a[1..], x, b, y);
      }
    }
  }

  lemma {:induction false} WrappedWeaves(es: seq<Event>)
    requires AllShared(es)
    ensures Weaves(Wrapped(es), [])
    decreases |es|
  {
    if es != [] {
      assert Wrapped(es)[1..] == Wrapped(es[1..]);
      WrappedWeaves(es[1..]);
    }
  }

  /** The moves of one source keep its URL. */
  predicate KeepUrl(moves: seq<Move>, k: Key, url: string) {
    forall a :: a in OwnActions(moves, k) ==> UrlFixed(a, url)
  }

  lemma {:induction false} WeavesFixed(actions: seq<Action>, own: seq<Action>, url: string)
    requires Weaves(actions, own) && forall a :: a in own ==> UrlFixed(a, url)
    ensures forall a :: a in actions ==> UrlFixed(a, url)
    decreases |actions|
  {
    if actions != [] {
      if own != [] && actions[0] == own[0] && Weaves(actions[1..], own[1..]) {
        WeavesFixed(actions[1..], own[1..], url);
      } else {
        WeavesFixed(actions[1..], own, url);
      }
    }
  }

  lemma OneAction(w: World, a: Action)
    ensures Exec(w, [a]) == Act(w, a) && Weaves([a], [a])
    ensures DoubleFaults(w, [a]) == One(DoubleFault(w, Act(w, a))) && Replacements(w, [a]) == One(ActReplaces(w, a))
  {
    hide Act, ActReplaces, DoubleFault;
    assert [a][1..] == [];
    assert Exec(Act(w, a), []) == Act(w, a) && Weaves([], []);
    assert DoubleFaults(Act(w, a), []) == 0 && Replacements(Act(w, a), []) == 0;
  }

  lemma {:induction false} FaultsJoin(w: World, a: seq<Action>, b: seq<Action>)
    ensures DoubleFaults(w, a + b) == DoubleFaults(w, a) + DoubleFaults(Exec(w, a), b)
    ensures Replacements(w, a + b) == Replacements(w, a) + Replacements(Exec(w, a), b)
    decreases |a|
  {
    hide Act, DoubleFault, ActReplaces;
    if a == [] {
      assert a + b == b;
    } else {
      assert (a + b)[1..] == a[1..] + b;
      FaultsJoin(Act(w, a[0]), a[1..], b);
    }
  }

  lemma {:induction false} WrappedFaultless(w: World, es: seq<Event>)
    ensures DoubleFaults(w, Wrapped(es)) == 0 && Replacements(w, Wrapped(es)) == 0
    decreases |es|
  {
    hide StoreEvent, Masked, Replacement;
    if es != [] {
      assert Wrapped(es)[1..] == Wrapped(es[1..]);
      WrappedFaultless(EnvStep(w, es[0]), es[1..]);
    }
  }

  /** The runs of one source in which both calls went wrong. */
  ghost function FaultsOf(c: Cluster, moves: seq<Move>, k: Key): nat
    decreases |moves|
  {
    if moves == [] then 0
    else
      (if moves[0].key == k && k in c.shares then One(DoubleFault(View(c, k), Act(View(c, k), moves[0].action))) else 0)
        + FaultsOf(Play(c, moves[0]), moves[1..], k)
  }

  /** The runs of one source whose source was replaced while they held a new hook. */
  ghost function ReplacementsOf(c: Cluster, moves: seq<Move>, k: Key): nat
    decreases |moves|
  {
    if moves == [] then 0
    else
      (if moves[0].key == k && k in c.shares then One(ActReplaces(View(c, k), moves[0].action)) else 0)
        + ReplacementsOf(Play(c, moves[0]), moves[1..], k)
  }

  lemma ProjectMove(c: Cluster, m: Move, k: Key) returns (actions: seq<Action>)
    requires FleetSeparate(c) && Proper(c, m) && k in c.shares
    ensures FleetSeparate(Play(c, m)) && k in Play(c, m).shares
    ensures Exec(View(c, k), actions) == View(Play(c, m), k)
    ensures Weaves(actions, if m.key == k then [m.action] else [])
    ensures DoubleFaults(View(c, k), actions) == if m.key == k then One(DoubleFault(View(c, k), Act(View(c, k), m.action))) else 0
    ensures Replacements(View(c, k), actions) == if m.key == k then One(ActReplaces(View(c, k), m.action)) else 0
  {
    hide FleetSeparate, Act, EnvSteps, ActReplaces, DoubleFault;
    actions := [];
    if m.key in c.shares {
      MoveSeparates(c, m);
      MoveIsSeen(c, m, k);
      if k == m.key {
        actions := [m.action];
        OneAction(View(c, k), m.action);
      } else {
        var es :| AllShared(es) && View(Play(c, m), k) == EnvSteps(View(c, k), es);
        actions := Wrapped(es);
        ExecWrapped(View(c, k), es);
        WrappedWeaves(es);
        WrappedFaultless(View(c, k), es);
      }
    }
  }

  /**
   The share of a source in any fleet history is a history of that source alone: its own moves in their
   order, with events of the environment in place of the moves of the others.
   */
  lemma {:induction false} Projects(c: Cluster, moves: seq<Move>, k: Key) returns (actions: seq<Action>)
    requires FleetSeparate(c) && ProperAll(c, moves) && k in c.shares
    ensures k in PlayAll(c, moves).shares && FleetSeparate(PlayAll(c, moves))
    ensures Exec(View(c, k), actions) == View(PlayAll(c, moves), k)
    ensures Weaves(actions, OwnActions(moves, k))
    ensures DoubleFaults(View(c, k), actions) == FaultsOf(c, moves, k) && Replacements(View(c, k), actions) == ReplacementsOf(c, moves, k)
    decreases |moves|
  {
    hide FleetSeparate, Act, Play, Proper, ActReplaces, DoubleFault;
    actions := [];
    if moves != [] {
      var first := ProjectMove(c, moves[0], k);
      var rest := Projects(Play(c, moves[0]), moves[1..], k);
      actions := first + rest;
      ExecConcat(View(c, k), first, rest);
      FaultsJoin(View(c, k), first, rest);
      WeavesJoin(first, if moves[0].key == k then [moves[0].action] else [], rest, OwnActions(moves[1..], k));
      assert [] + OwnActions(moves[1..], k) == OwnActions(moves[1..], k);
    }
  }

  // ---------- The theorems, for each source of a fleet ----------

  /**
   Accounting per source, whatever the other sources do: at most one unrecorded hook for each failed run of
   this source, one more for each of its double faults, and one for each of its replacements.
   */
  lemma FleetAccounting(c: Cluster, moves: seq<Move>, k: Key, url: string)
    requires FleetInitial(c) && ProperAll(c, moves) && k in c.shares && KeepUrl(moves, k, url)
    ensures k in PlayAll(c, moves).shares
    ensures var w := View(PlayAll(c, moves), k);
      && |Unrecorded(w)| <= w.ledger.errors + FaultsOf(c, moves, k) + ReplacementsOf(c, moves, k)
      && (w.ledger.errors == 0 && ReplacementsOf(c, moves, k) == 0 ==> OurLive(w) <= RecordedId(w))
  {
    hide Exec, OwnActions;
    FleetStarts(c);
    var actions := Projects(c, moves, k);
    WeavesFixed(actions, OwnActions(moves, k), url);
    HookAccounting(View(c, k), actions, url);
    ErrorFree(View(c, k), actions, url);
  }

  /**
   What needs no hypothesis at all: at most one Deployment for each UID of a source, hooks of different sources
   never mix, and if no run of the source failed, an ID that the server stores comes with our finalizer.
   */
  lemma FleetSafety(c: Cluster, moves: seq<Move>, k: Key)
    requires FleetInitial(c) && ProperAll(c, moves) && k in c.shares
    ensures k in PlayAll(c, moves).shares && FleetSeparate(PlayAll(c, moves))
    ensures var w := View(PlayAll(c, moves), k);
      && ReceiversOK(w)
      && (w.ledger.errors == 0 && HasKey(Server(w.store)) ==> ServerHasOurs(w))
  {
    hide FleetSeparate, Exec;
    FleetStarts(c);
    var actions := Projects(c, moves, k);
    ExecReceivers(View(c, k), actions);
    CleanIfErrorFree(View(c, k), actions);
  }

  // ---------- Non-interference ----------

  /** Deployments of other owners and hooks that this source has not booked are as before. */
  ghost predicate Spares(w: World, w': World) {
    && (w'.kube.deployments == w.kube.deployments
        || exists d :: w'.kube.deployments == w.kube.deployments + [d] && d.controller.Some? && d.controller.value in w.uids)
    && (forall h: Hook :: h.id !in w'.ledger.created ==> (h in w'.gitlab.hooks <==> h in w.gitlab.hooks))
  }

  lemma OwnIdParses(w: World, key: string)
    requires AllOwn(w) && ValidKey(w, key)
    ensures Atoi(key).Some? ==> Atoi(key).value in w.ledger.created
  {
    if key != "" {
      var id :| id in w.ledger.created && key == Itoa(id);
      AtoiItoa(id);
    }
  }

  lemma DeleteSpares(w: World, s: Source, o: Oracle)
    requires ValidGitLab(w.gitlab) && AllOwn(w) && ValidKey(w, KeyOf(s))
    ensures Spares(w, DeleteWebhook(w, s, o).world)
  {
    hide AddressOf, AllOwn;
    OwnIdParses(w, KeyOf(s));
    if AddressOf(s.spec.projectURL).Ok? {
      DeleteFacts(w.gitlab, AddressOf(s.spec.projectURL).value, KeyOf(s), o.listHooksFails, o.deleteHook);
    }
  }

  lemma CreateSpares(w: World, s: Source, domain: string, o: Oracle)
    requires ValidGitLab(w.gitlab)
    ensures Spares(w, CreateWebhook(w, s, domain, o).world)
  {
    hide AddressOf, HookConfigOf;
    if AddressOf(s.spec.projectURL).Ok? {
      AddFacts(w.gitlab, AddressOf(s.spec.projectURL).value, o.hookId, HookConfigOf(s, domain, o), o.addHook);
    }
  }

  lemma ChildrenSpare(w: World, s: Source, o: Oracle)
    requires Undisturbed(o) && s.uid in w.uids
    ensures Spares(w, MakeChildren(w, s, o).world)
  {
    Resting(w);
    Resting(AddReceiver(w, s, o));
    var d := Owned(MakeReceiveAdapter(s, o.image), s, o.deploymentSuffix);
    assert d.controller == Some(s.uid);
  }

  lemma RegisterSpares(w: World, s: Source, o: Oracle)
    requires Undisturbed(o) && ValidGitLab(w.gitlab)
    ensures Spares(w, RegisterHook(w, s, o).world)
  {
    hide Spares, CreateWebhook, F.Add, ChooseService;
    Resting(w);
    SparesSame(w, w);
    var s1 := s.(finalizers := F.Add(s.finalizers));
    var svc := ChooseService(w.kube.services, s1);
    if svc.Some? && svc.value.ingress != [] && svc.value.nodePorts != [] {
      CreateSpares(w, s1, svc.value.ingress[0] + ":" + Itoa(svc.value.nodePorts[0]), o);
    }
  }

  lemma SparesSame(w: World, w': World)
    requires w'.kube == w.kube && w'.gitlab == w.gitlab
    ensures Spares(w, w')
  {
  }

  lemma BodySpares(w: World, original: Source, o: Oracle)
    requires ValidGitLab(w.gitlab) && AllOwn(w) && AllNamed(w) && Undisturbed(o) && w.store.cache == Some(original)
    ensures Spares(w, Body(w, original, o).world)
  {
    hide Spares, SettleStatus, MakeChildren, RegisterHook, DeleteWebhook, HasReceiver, F.Remove;
    Resting(w);
    SparesSame(w, w);
    if original.deleting {
      DeleteSpares(w, original.(finalizers := F.Remove(original.finalizers)), o);
    } else {
      var s1 := original.(status := SettleStatus(original.spec, original.status, o).status);
      ChildrenSpare(w, s1, o);
      RegisterSpares(w, s1, o);
    }
  }

  lemma RunSpares(w: World, o: Oracle)
    requires ValidGitLab(w.gitlab) && AllOwn(w) && AllNamed(w) && Undisturbed(o)
    ensures Spares(w, Reconcile(w, o).0)
  {
    hide Body, WriteStatus, WriteFinalizers, AllOwn;
    SparesSame(w, w);
    if !o.listerFails && w.store.cache.Some? {
      var original := w.store.cache.value;
      BodySpares(w, original, o);
      var b := Body(w, original, o);
      StatusRewrites(b.world, original, b.source, o);
      FinalizersRewrite(WriteStatus(b.world, original, b.source, o).0, original, b.source, o);
    }
  }

  /**
   Non-interference: after every fleet history, a run of one source leaves every other source's server
   object, cached object and ledger alone, and all Deployments and hooks that belong to it.
   */
  lemma RunsDoNotInterfere(c: Cluster, moves: seq<Move>, k: Key, j: Key, o: Oracle)
    requires FleetInitial(c) && ProperAll(c, moves) && k in c.shares && j in c.shares && j != k && Undisturbed(o)
    ensures k in PlayAll(c, moves).shares && j in PlayAll(c, moves).shares
    ensures var c1 := PlayAll(c, moves);
      var c2 := Play(c1, Move(k, Run(o)));
      && j in c2.shares && c2.shares[j] == c1.shares[j]
      && (forall d :: d in c1.kube.deployments ==> d in c2.kube.deployments)
      && (forall d :: d in c2.kube.deployments && d.controller.Some? && d.controller.value in c1.shares[j].uids ==> d in c1.kube.deployments)
      && (forall h: Hook :: h.id in c1.shares[j].ledger.created ==> (h in c2.gitlab.hooks <==> h in c1.gitlab.hooks))
  {
    hide Reconcile, Reading, AllOwn;
    FleetStarts(c);
    var actions := Projects(c, moves, k);
    var other := Projects(c, moves, j);
    InitialStored(View(c, k));
    ExecStored(View(c, k), actions);
    var c1 := PlayAll(c, moves);
    RunSpares(View(c1, k), o);
    RunProper(c1, k, j, o);
  }

  lemma RunProper(c: Cluster, k: Key, j: Key, o: Oracle)
    requires FleetSeparate(c) && Undisturbed(o) && k in c.shares && j in c.shares && j != k
    ensures var c' := Play(c, Move(k, Run(o)));
      j in c'.shares && k in c'.shares && c'.shares[j] == c.shares[j] && c'.shares[j].ledger.created !! c'.shares[k].ledger.created
  {
    hide Reconcile;
    assert Proper(c, Move(k, Run(o)));
    MoveSeparates(c, Move(k, Run(o)));
  }
}
