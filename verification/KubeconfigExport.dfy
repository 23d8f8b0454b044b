/**
 internal/kubeconfigexport: how an export names its target, fingerprints its inputs, marks the
 Secret it writes, and decides when the credential in it must be replaced.
 */
module KubeconfigExport {
  import opened Kube

  const DEFAULT_SECRET_KEY := "kubeconfig"
  const MANAGED_BY_LABEL := "app.kubernetes.io/managed-by"
  const OWNER_UID_LABEL := "omni.texashpc.com/kubeconfig-export-uid"
  const CLUSTER_LABEL := "omni.texashpc.com/cluster"
  const MANAGED_BY_VALUE := "omni-cluster-operator"
  const OWNER_ANNOTATION := "omni.texashpc.com/kubeconfig-export-name"
  const OWNER_NAMESPACE_ANNOTATION := "omni.texashpc.com/kubeconfig-export-namespace"
  const HASH_ANNOTATION := "omni.texashpc.com/kubeconfig-hash"
  const SPEC_HASH_ANNOTATION := "omni.texashpc.com/kubeconfig-export-spec-hash"
  const EXPIRATION_ANNOTATION := "omni.texashpc.com/kubeconfig-expiration-time"
  const LAST_ROTATION_ANNOTATION := "omni.texashpc.com/kubeconfig-last-rotation-time"

  const MANAGED_LABELS: set<string> := {MANAGED_BY_LABEL, OWNER_UID_LABEL, CLUSTER_LABEL}
  const MANAGED_ANNOTATIONS: set<string> :=
    {OWNER_ANNOTATION, OWNER_NAMESPACE_ANNOTATION, HASH_ANNOTATION, SPEC_HASH_ANNOTATION,
     EXPIRATION_ANNOTATION, LAST_ROTATION_ANNOTATION}

  datatype Spec = Spec(clusterRef: string, targetName: string, targetNamespace: string, targetKey: string,
                       user: string, groups: seq<string>, allowClusterAdmin: bool,
                       contextNamespace: string, ttl: Nanos, renewBefore: Option<Nanos>,
                       deletionPolicy: string)

  datatype Status = Status(observedGeneration: int, clusterRef: string, clusterName: string, connectionRef: string,
                           targetName: string, targetNamespace: string, targetKey: string,
                           hash: Option<Digest>, expiration: Option<Nanos>,
                           lastRotation: Option<Nanos>, nextRotation: Option<Nanos>,
                           conditions: Conditions)

  const EMPTY_STATUS := Status(0, "", "", "", "", "", "", None, None, None, None, map[])

  datatype Export = Export(key: Key, uid: string, generation: int, deleting: bool, finalizer: bool,
                           spec: Spec, status: Status)

  function TargetSecretKey(spec: Spec): string {
    if spec.targetKey != "" then spec.targetKey else DEFAULT_SECRET_KEY
  }

  function TargetSecretNamespace(item: Export): string {
    if item.spec.targetNamespace != "" then item.spec.targetNamespace else item.key.namespace
  }

  /** The Secret the spec asks for. */
  function SpecTarget(item: Export): Key {
    Key(TargetSecretNamespace(item), item.spec.targetName)
  }

  function Hash(data: Bytes): Digest {
    Sha256(RawBytes(data))
  }

  /** Everything that decides which kubeconfig Omni generates. */
  function Request(item: Export, clusterName: string): Payload {
    KubeconfigInputs(clusterName, TargetSecretKey(item.spec), item.spec.contextNamespace,
                     item.spec.user, item.spec.groups, item.spec.ttl)
  }

  function SpecHash(item: Export, clusterName: string): Digest {
    Sha256(Request(item, clusterName))
  }

  /** RFC 3339 text carries no fraction of a second. */
  function FloorSecond(t: Nanos): Nanos {
    t - t % SECOND
  }

  function SecretLabels(item: Export, clusterName: string): map<string, string> {
    map[MANAGED_BY_LABEL := MANAGED_BY_VALUE, OWNER_UID_LABEL := item.uid, CLUSTER_LABEL := clusterName]
  }

  function SecretAnnotations(item: Export, specHash: Digest, hash: Digest,
                             expiration: Nanos, lastRotation: Nanos): map<string, Value> {
    map[OWNER_ANNOTATION := Text(item.key.name),
        OWNER_NAMESPACE_ANNOTATION := Text(item.key.namespace),
        SPEC_HASH_ANNOTATION := Hex(specHash),
        HASH_ANNOTATION := Hex(hash),
        EXPIRATION_ANNOTATION := Stamp(FloorSecond(expiration)),
        LAST_ROTATION_ANNOTATION := Stamp(FloorSecond(lastRotation))]
  }

  predicate IsOwnedSecret(item: Export, s: Secret) {
    if item.uid != "" then Label(s, OWNER_UID_LABEL) == item.uid
    else Annotation(s, OWNER_ANNOTATION) == Text(item.key.name)
  }

  /** Ownership is always by a mark that is there: the uid label, or for an export without uid the name annotation. */
  lemma OwnershipIsMarked(item: Export, s: Secret)
    requires item.key.name != ""
    ensures item.uid != "" ==>
      (IsOwnedSecret(item, s) <==> OWNER_UID_LABEL in s.labels && s.labels[OWNER_UID_LABEL] == item.uid)
    ensures item.uid == "" ==>
      (IsOwnedSecret(item, s) <==> OWNER_ANNOTATION in s.annotations && s.annotations[OWNER_ANNOTATION] == Text(item.key.name))
  {
  }

  function NextRotationTime(expiration: Nanos, renewBefore: Option<Nanos>): Nanos {
    if renewBefore.None? || renewBefore.value <= 0 then expiration else expiration - renewBefore.value
  }

  predicate RotationDue(now: Nanos, expiration: Nanos, renewBefore: Option<Nanos>) {
    !(now < NextRotationTime(expiration, renewBefore))
  }

  /** An absent or empty annotation is not an error; text that is not a timestamp is. */
  datatype TimeLookup = NoTime | At(t: Nanos) | Malformed

  function AnnotationTime(s: Secret, key: string): TimeLookup {
    match Annotation(s, key)
    case Stamp(t) => At(t)
    case Text(text) => if text == "" then NoTime else Malformed
    case Hex(_) => Malformed
  }

  /** Rotation is due once the remaining lifetime is down to renewBefore, or to nothing if that is not set. */
  lemma RotationDueIff(now: Nanos, expiration: Nanos, renewBefore: Option<Nanos>)
    ensures renewBefore.Some? && renewBefore.value > 0 ==>
      (RotationDue(now, expiration, renewBefore) <==> expiration - now <= renewBefore.value)
    ensures renewBefore.None? ==> (RotationDue(now, expiration, renewBefore) <==> expiration <= now)
  {
  }

  /** A timestamp comes back from the annotation rounded down: exactly itself only on whole seconds. */
  lemma AnnotationRoundTrip(item: Export, s: Secret, specHash: Digest, hash: Digest, expiration: Nanos, last: Nanos)
    requires s.annotations == SecretAnnotations(item, specHash, hash, expiration, last)
    ensures AnnotationTime(s, EXPIRATION_ANNOTATION) == At(FloorSecond(expiration))
    ensures AnnotationTime(s, LAST_ROTATION_ANNOTATION) == At(FloorSecond(last))
    ensures expiration - (SECOND - 1) <= FloorSecond(expiration) <= expiration
    ensures AnnotationTime(s, EXPIRATION_ANNOTATION) == At(expiration) <==> expiration % SECOND == 0
  {
    assert s.annotations[EXPIRATION_ANNOTATION] == Stamp(FloorSecond(expiration));
    assert s.annotations[LAST_ROTATION_ANNOTATION] == Stamp(FloorSecond(last));
  }
}
