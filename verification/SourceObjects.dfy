/**
 The GitLabSource on the heap: what is embedded is an object that never changes its place, what Go
 reaches through a pointer or a slice is a reference that can be shared. `DeepCopy` shares nothing.
 */
module SourceObjects {
  import opened Outcomes
  import opened StatusObjects
  import V = Sources
  import S = Statuses

  class SecretKeySelector {
    var name: string
    var key: string

    constructor (name: string, key: string)
      ensures this.name == name && this.key == key
    {
      this.name, this.key := name, key;
    }
  }

  class ObjectReference {
    var value: V.ObjectReference

    constructor (value: V.ObjectReference)
      ensures this.value == value
    {
      this.value := value;
    }
  }

  /** What a `*string` points to. */
  class StringCell {
    var value: string

    constructor (value: string)
      ensures this.value == value
    {
      this.value := value;
    }
  }

  method CopySlice(a: array?<string>) returns (b: array?<string>)
    ensures if a == null then b == null else b != null && fresh(b) && b[..] == a[..]
  {
    b := null;
    if a != null {
      b := new string[a.Length];
      for i := 0 to a.Length
        invariant b != null && fresh(b) && b.Length == a.Length && b[..i] == a[..i]
      {
        b[i] := a[i];
      }
      assert b[..] == a[..];
    }
  }

  method MakeSlice(s: seq<string>) returns (b: array<string>)
    ensures fresh(b) && b[..] == s
  {
    b := new string[|s|](i requires 0 <= i < |s| => s[i]);
  }

  function Slice(a: array?<string>): seq<string>
    reads a
  {
    if a == null then [] else a[..]
  }

  function Selected(r: SecretKeySelector?): Option<V.SecretKeySelector>
    reads r
  {
    if r == null then None else Some(V.SecretKeySelector(r.name, r.key))
  }

  /** `SecretValueFromSource` is a struct of one pointer: copying it copies what the pointer refers to. */
  method CopySecretRef(r: SecretKeySelector?) returns (c: SecretKeySelector?)
    ensures Selected(c) == Selected(r) && (c != null ==> fresh(c))
  {
    c := null;
    if r != null { c := new SecretKeySelector(r.name, r.key); }
  }

  method CopyReference(r: ObjectReference?) returns (c: ObjectReference?)
    ensures if r == null then c == null else c != null && fresh(c) && c.value == r.value
  {
    c := null;
    if r != null { c := new ObjectReference(r.value); }
  }

  method CopyString(r: StringCell?) returns (c: StringCell?)
    ensures if r == null then c == null else c != null && fresh(c) && c.value == r.value
  {
    c := null;
    if r != null { c := new StringCell(r.value); }
  }

  class GitLabSourceSpec {
    var serviceAccountName: string
    var projectURL: string
    var eventTypes: array?<string>
    var accessToken: SecretKeySelector?
    var secretToken: SecretKeySelector?
    var sink: ObjectReference?
    var uri: StringCell?
    var secure: bool

    constructor ()
      ensures eventTypes == null && accessToken == null && secretToken == null && sink == null && uri == null
    {
      serviceAccountName, projectURL, eventTypes := "", "", null;
      accessToken, secretToken, sink, uri, secure := null, null, null, null, false;
    }

    function Value(): V.Spec
      reads this, eventTypes, accessToken, secretToken, sink, uri
    {
      V.Spec(serviceAccountName, projectURL, Slice(eventTypes), Selected(accessToken), Selected(secretToken),
        if sink == null then None else Some(sink.value), if uri == null then None else Some(uri.value), secure)
    }

    /** Everything the struct points to is new. */
    method DeepCopyInto(out: GitLabSourceSpec)
      requires out != this
      modifies out
      ensures out.Value() == old(Value())
      ensures (out.eventTypes != null ==> fresh(out.eventTypes)) && (out.sink != null ==> fresh(out.sink)) && (out.uri != null ==> fresh(out.uri))
      ensures (out.accessToken != null ==> fresh(out.accessToken)) && (out.secretToken != null ==> fresh(out.secretToken))
    {
      out.serviceAccountName, out.projectURL, out.secure := serviceAccountName, projectURL, secure;
      out.eventTypes, out.accessToken, out.secretToken, out.sink, out.uri := eventTypes, accessToken, secretToken, sink, uri;
      out.eventTypes := CopySlice(eventTypes);
      out.accessToken := CopySecretRef(accessToken);
      out.secretToken := CopySecretRef(secretToken);
      out.sink := CopyReference(sink);
      out.uri := CopyString(uri);
    }
  }

  /** `ObjectMeta`, as far as the reconciler uses it. */
  datatype Meta = Meta(namespace: string, name: string, uid: nat, rv: nat, deleting: bool, finalizers: seq<string>)

  class ObjectMeta {
    var namespace: string
    var name: string
    var uid: nat
    var resourceVersion: nat
    var deleting: bool
    var finalizers: array?<string>

    constructor ()
      ensures finalizers == null
    {
      namespace, name, uid, resourceVersion, deleting, finalizers := "", "", 0, 0, false, null;
    }

    function Value(): Meta
      reads this, finalizers
    {
      Meta(namespace, name, uid, resourceVersion, deleting, Slice(finalizers))
    }

    method DeepCopyInto(out: ObjectMeta)
      requires out != this
      modifies out
      ensures out.Value() == old(Value())
      ensures out.finalizers != null ==> fresh(out.finalizers)
    {
      out.namespace, out.name, out.uid, out.resourceVersion, out.deleting := namespace, name, uid, resourceVersion, deleting;
      out.finalizers := finalizers;
      out.finalizers := CopySlice(finalizers);
    }
  }

  function Assemble(m: Meta, spec: V.Spec, status: S.Status): V.Source {
    V.Source(m.namespace, m.name, m.uid, m.rv, m.deleting, m.finalizers, spec, status)
  }

  class GitLabSource {
    const meta: ObjectMeta
    const spec: GitLabSourceSpec
    const status: GitLabSourceStatus

    constructor ()
      ensures fresh(meta) && fresh(spec) && fresh(status)
      ensures meta.finalizers == null && spec.eventTypes == null && status.conditions == null
    {
      meta := new ObjectMeta();
      spec := new GitLabSourceSpec();
      status := new GitLabSourceStatus();
    }

    /** All storage that the value depends on. */
    ghost function Storage(): set<object?>
      reads meta, spec, status
    {
      {meta, meta.finalizers, spec, spec.eventTypes, spec.accessToken, spec.secretToken, spec.sink, spec.uri, status, status.conditions}
    }

    function Value(): V.Source
      reads meta, meta.finalizers, spec, spec.eventTypes, spec.accessToken, spec.secretToken, spec.sink, spec.uri, status, status.conditions
    {
      Assemble(meta.Value(), spec.Value(), status.Value())
    }

    method DeepCopyInto(out: GitLabSource)
      requires out.meta != meta && out.spec != spec && out.status != status
      modifies out.meta, out.spec, out.status
      ensures out.Value() == old(Value())
      ensures (out.meta.finalizers != null ==> fresh(out.meta.finalizers)) && (out.status.conditions != null ==> fresh(out.status.conditions))
      ensures out.spec.eventTypes != null ==> fresh(out.spec.eventTypes)
      ensures (out.spec.sink != null ==> fresh(out.spec.sink)) && (out.spec.uri != null ==> fresh(out.spec.uri))
      ensures (out.spec.accessToken != null ==> fresh(out.spec.accessToken)) && (out.spec.secretToken != null ==> fresh(out.spec.secretToken))
    {
      meta.DeepCopyInto(out.meta);
      spec.DeepCopyInto(out.spec);
      status.DeepCopyInto(out.status);
    }

    /** An equal object that shares no storage with this one. */
    method DeepCopy() returns (out: GitLabSource)
      ensures fresh(out) && fresh(out.meta) && fresh(out.spec) && fresh(out.status)
      ensures out.Value() == Value()
      ensures (out.meta.finalizers != null ==> fresh(out.meta.finalizers)) && (out.status.conditions != null ==> fresh(out.status.conditions))
      ensures out.spec.eventTypes != null ==> fresh(out.spec.eventTypes)
      ensures (out.spec.sink != null ==> fresh(out.spec.sink)) && (out.spec.uri != null ==> fresh(out.spec.uri))
      ensures (out.spec.accessToken != null ==> fresh(out.spec.accessToken)) && (out.spec.secretToken != null ==> fresh(out.spec.secretToken))
    {
      out := new GitLabSource();
      DeepCopyInto(out);
    }
  }

  method MakeSecretRef(r: Option<V.SecretKeySelector>) returns (c: SecretKeySelector?)
    ensures Selected(c) == r && (c != null ==> fresh(c))
  {
    c := null;
    if r.Some? { c := new SecretKeySelector(r.value.name, r.value.key); }
  }

  /** What the informer makes of a version it receives. */
  method Decode(s: V.Source) returns (out: GitLabSource)
    ensures fresh(out) && fresh(out.meta) && fresh(out.spec) && fresh(out.status)
    ensures out.Value() == s
  {
    out := new GitLabSource();
    DecodeMeta(s, out.meta);
    DecodeSpec(s.spec, out.spec);
    DecodeStatus(s.status, out.status);
  }

  method DecodeStatus(s: S.Status, out: GitLabSourceStatus)
    modifies out
    ensures out.Value() == s
  {
    out.webhookIDKey, out.sinkURI := s.webhookIDKey, s.sinkURI;
    out.conditions := new S.Condition[|s.conditions|](i requires 0 <= i < |s.conditions| => s.conditions[i]);
    assert out.conditions[..] == s.conditions;
  }

  method DecodeMeta(s: V.Source, out: ObjectMeta)
    modifies out
    ensures out.Value() == Meta(s.namespace, s.name, s.uid, s.rv, s.deleting, s.finalizers)
  {
    out.namespace, out.name, out.uid, out.resourceVersion, out.deleting := s.namespace, s.name, s.uid, s.rv, s.deleting;
    out.finalizers := MakeSlice(s.finalizers);
  }

  method DecodeSpec(s: V.Spec, out: GitLabSourceSpec)
    modifies out
    ensures out.Value() == s
  {
    out.serviceAccountName, out.projectURL, out.secure := s.serviceAccountName, s.projectURL, s.secure;
    out.eventTypes := MakeSlice(s.eventTypes);
    out.accessToken := MakeSecretRef(s.accessToken);
    out.secretToken := MakeSecretRef(s.secretToken);
    out.sink, out.uri := null, null;
    if s.sink.Some? { out.sink := new ObjectReference(s.sink.value); }
    if s.uri.Some? { out.uri := new StringCell(s.uri.value); }
  }
}
