/** The GitLabSource resource as a value: what the API server stores and what a cache entry holds. */
module Sources {
  import opened Outcomes
  import opened Statuses

  datatype SecretKeySelector = SecretKeySelector(name: string, key: string)

  datatype ObjectReference = ObjectReference(apiVersion: string, kind: string, namespace: string, name: string)

  datatype Spec = Spec(
    serviceAccountName: string,
    projectURL: string,
    eventTypes: seq<string>,
    accessToken: Option<SecretKeySelector>,
    secretToken: Option<SecretKeySelector>,
    sink: Option<ObjectReference>,
    uri: Option<string>,
    secure: bool)

  /** `rv` is the resourceVersion; `deleting` says that the deletion timestamp is set. */
  datatype Source = Source(
    namespace: string,
    name: string,
    uid: nat,
    rv: nat,
    deleting: bool,
    finalizers: seq<string>,
    spec: Spec,
    status: Status)
}
