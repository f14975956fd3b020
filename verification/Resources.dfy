/** The receiver Deployment, the public Service, and how the reconciler finds them again. */
module Resources {
  import opened Outcomes
  import opened Sources

  const AGENT: string := "gitlab-source-controller"

  /** `controller` is the UID of the controller owner reference. */
  datatype Deployment = Deployment(
    generateName: string,
    name: string,
    namespace: string,
    labels: map<string, string>,
    controller: Option<nat>,
    image: string,
    sinkURI: string,
    secretToken: Option<SecretKeySelector>,
    serviceAccountName: string)

  datatype Service = Service(
    generateName: string,
    name: string,
    namespace: string,
    labels: map<string, string>,
    controller: Option<nat>,
    nodePorts: seq<int>,
    ingress: seq<string>)

  function Labels(s: Source): map<string, string> {
    map["eventing-source" := "gitlab-source-controller", "eventing-source-name" := s.name]
  }

  function MakeReceiveAdapter(s: Source, image: string): Deployment {
    Deployment(s.name + "-deployment", "", s.namespace, Labels(s), None, image, s.status.sinkURI, s.spec.secretToken,
      s.spec.serviceAccountName)
  }

  function MakePublicService(s: Source): Service {
    Service(s.name + "-service", "", s.namespace, Labels(s), None, [0], [])
  }

  /** What the API server stores: the owner set by `SetControllerReference` and a name generated from the prefix. */
  function Owned(d: Deployment, s: Source, suffix: string): Deployment {
    d.(controller := Some(s.uid), name := d.generateName + suffix)
  }

  function OwnedService(v: Service, s: Source, suffix: string): Service {
    v.(controller := Some(s.uid), name := v.generateName + suffix)
  }

  /** The label selector of `getLabelSelector`, in the source's namespace. */
  predicate Selected(d: Deployment, s: Source) {
    && d.namespace == s.namespace
    && "eventing-source" in d.labels && d.labels["eventing-source"] == AGENT
    && "eventing-source-name" in d.labels && d.labels["eventing-source-name"] == s.name
  }

  predicate IsReceiverOf(d: Deployment, s: Source) {
    Selected(d, s) && d.controller == Some(s.uid)
  }

  /** The Deployment is in the namespace, has both labels, and its controller is the source. */
  ghost predicate Controls(d: Deployment, s: Source) {
    && d.namespace == s.namespace && d.controller == Some(s.uid)
    && "eventing-source" in d.labels && d.labels["eventing-source"] == "gitlab-source-controller"
    && "eventing-source-name" in d.labels && d.labels["eventing-source-name"] == s.name
  }

  predicate HasReceiver(ds: seq<Deployment>, s: Source) {
    exists d :: d in ds && IsReceiverOf(d, s)
  }

  /** `getOwnedReceiver`: the first listed Deployment that the source controls. */
  method GetOwnedReceiver(ds: seq<Deployment>, s: Source) returns (r: Option<Deployment>)
    ensures r.Some? <==> HasReceiver(ds, s)
    ensures r.Some? ==> r.value in ds && IsReceiverOf(r.value, s)
    ensures r.None? <==> forall d :: d in ds ==> !Controls(d, s)
  {
    for i := 0 to |ds|
      invariant forall j :: 0 <= j < i ==> !IsReceiverOf(ds[j], s)
    {
      if Selected(ds[i], s) && ds[i].controller == Some(s.uid) {
        assert ds[i] in ds && IsReceiverOf(ds[i], s);
        return Some(ds[i]);
      }
    }
    return None;
  }

  /** Whatever suffix the server generates, the created Deployment is the one the next lookup finds. */
  lemma CreatedReceiverIsFound(ds: seq<Deployment>, s: Source, image: string, suffix: string)
    ensures HasReceiver(ds + [Owned(MakeReceiveAdapter(s, image), s, suffix)], s)
  {
    var d := Owned(MakeReceiveAdapter(s, image), s, suffix);
    var all := ds + [d];
    assert all[|ds|] == d && d in all && IsReceiverOf(d, s);
  }

  // ---------- Service selection ----------

  predicate Candidate(v: Service, s: Source) { v.namespace == s.namespace && s.name <= v.name }

  /** The last Service of the namespace whose name starts with the source's name. */
  function ChooseService(vs: seq<Service>, s: Source): Option<Service> {
    if vs == [] then None
    else if Candidate(vs[|vs| - 1], s) then Some(vs[|vs| - 1])
    else ChooseService(vs[..|vs| - 1], s)
  }

  /** No qualifying Service is listed after the `i`th, which qualifies. */
  ghost predicate LastCandidate(vs: seq<Service>, s: Source, i: int) {
    && 0 <= i < |vs| && vs[i].namespace == s.namespace && s.name <= vs[i].name
    && forall j :: i < j < |vs| ==> !(vs[j].namespace == s.namespace && s.name <= vs[j].name)
  }

  /** Of several that qualify, the last one listed is chosen. */
  lemma {:induction false} LastIsChosen(vs: seq<Service>, s: Source, i: int)
    requires LastCandidate(vs, s, i)
    ensures ChooseService(vs, s) == Some(vs[i])
  {
    if i < |vs| - 1 {
      assert LastCandidate(vs[..|vs| - 1], s, i);
      LastIsChosen(vs[..|vs| - 1], s, i);
    }
  }

  /** Conversely, whatever is chosen is the last that qualifies. */
  lemma {:induction false} ChosenIsLast(vs: seq<Service>, s: Source) returns (i: int)
    requires ChooseService(vs, s).Some?
    ensures LastCandidate(vs, s, i) && ChooseService(vs, s) == Some(vs[i])
  {
    i := |vs| - 1;
    if !Candidate(vs[i], s) {
      i := ChosenIsLast(vs[..|vs| - 1], s);
      assert LastCandidate(vs, s, i);
    }
  }

  /** The selection loop of `reconcile`: the last qualifying Service, if there is one. */
  method SelectService(vs: seq<Service>, s: Source) returns (svc: Option<Service>)
    ensures svc == ChooseService(vs, s)
    ensures forall i :: LastCandidate(vs, s, i) ==> svc == Some(vs[i])
    ensures svc.None? <==> forall v :: v in vs ==> !(v.namespace == s.namespace && s.name <= v.name)
  {
    svc := None;
    for i := 0 to |vs|
      invariant svc == ChooseService(vs[..i], s)
      invariant svc.None? <==> forall j :: 0 <= j < i ==> !Candidate(vs[j], s)
    {
      assert vs[..i + 1][..i] == vs[..i];
      if Candidate(vs[i], s) {
        svc := Some(vs[i]);
      }
    }
    assert vs[..|vs|] == vs;
    forall i | LastCandidate(vs, s, i) ensures svc == Some(vs[i]) {
      LastIsChosen(vs, s, i);
    }
  }

  lemma {:induction false} ChosenIsCandidate(vs: seq<Service>, s: Source)
    ensures ChooseService(vs, s).Some? ==> ChooseService(vs, s).value in vs && Candidate(ChooseService(vs, s).value, s)
    ensures ChooseService(vs, s).None? <==> forall v :: v in vs ==> !Candidate(v, s)
  {
    if vs != [] {
      var front := vs[..|vs| - 1];
      ChosenIsCandidate(front, s);
      assert vs == front + [vs[|vs| - 1]];
    }
  }

  /** The Service made for a source qualifies under every generated name. */
  lemma OwnServiceQualifies(s: Source, suffix: string)
    ensures Candidate(OwnedService(MakePublicService(s), s, suffix), s)
  {
    var name := OwnedService(MakePublicService(s), s, suffix).name;
    assert name == s.name + ("-service" + suffix);
  }

  ghost predicate OrderIndependent(vs: seq<Service>, s: Source) {
    forall us :: multiset(us) == multiset(vs) ==> ChooseService(us, s) == ChooseService(vs, s)
  }

  /** The choice ignores the order of the list exactly when all qualifying Services are one and the same. */
  lemma OrderIndependentIff(vs: seq<Service>, s: Source)
    ensures OrderIndependent(vs, s) <==>
      forall u, v :: u in vs && v in vs && Candidate(u, s) && Candidate(v, s) ==> u == v
  {
    if forall u, v :: u in vs && v in vs && Candidate(u, s) && Candidate(v, s) ==> u == v {
      forall us | multiset(us) == multiset(vs) ensures ChooseService(us, s) == ChooseService(vs, s) {
        ChosenIsCandidate(us, s);
        ChosenIsCandidate(vs, s);
        assert forall v :: v in us <==> v in multiset(us);
        assert forall v :: v in vs <==> v in multiset(vs);
      }
    }
    if OrderIndependent(vs, s) {
      forall u | u in vs && Candidate(u, s) ensures ChooseService(vs, s) == Some(u) {
        var us := MovedLastIsChosen(vs, s, u);
      }
    }
  }

  lemma MovedLastIsChosen(vs: seq<Service>, s: Source, u: Service) returns (us: seq<Service>)
    requires u in vs && Candidate(u, s)
    ensures multiset(us) == multiset(vs) && ChooseService(us, s) == Some(u)
  {
    var i :| 0 <= i < |vs| && vs[i] == u;
    us := vs[..i] + vs[i + 1..] + [u];
    assert vs == vs[..i] + [u] + vs[i + 1..];
    assert multiset(us) == multiset(vs);
    assert us[|us| - 1] == u;
  }
}
