/**
 internal/secretsync: the workload-cluster Secret an OmniSecretSync wants, who owns it, and the
 client that creates, updates and deletes it in place.
 */
module SecretSync {
  import opened Kube

  const DEFAULT_KUBECONFIG_KEY := "kubeconfig"
  const MANAGED_BY_LABEL := "app.kubernetes.io/managed-by"
  const OWNER_UID_LABEL := "omni.texashpc.com/secret-sync-uid"
  const CLUSTER_LABEL := "omni.texashpc.com/cluster"
  const MANAGED_BY_VALUE := "omni-cluster-operator"
  const OWNER_ANNOTATION := "omni.texashpc.com/secret-sync-name"
  const HASH_ANNOTATION := "omni.texashpc.com/secret-sync-hash"
  const SOURCE_ANNOTATION := "omni.texashpc.com/secret-sync-source"
  const CONTENT_ANNOTATION := "omni.texashpc.com/secret-sync-content"
  const CONTENT_HASH_VERSION := "v1"

  datatype Spec = Spec(clusterRef: string, kubeconfigName: string, kubeconfigKey: string, source: string,
                       target: Key, kind: string, labels: map<string, string>, annotations: map<string, Value>,
                       createNamespace: bool, deletionPolicy: string)

  /** The recorded target counts as set only when both its names are. */
  datatype Status = Status(observedGeneration: int, target: Key, hash: Option<Digest>, conditions: Conditions)

  datatype Item = Item(key: Key, uid: string, generation: int, deleting: bool, finalizer: bool,
                       spec: Spec, status: Status)

  function SecretLabels(item: Item, clusterName: string): map<string, string> {
    map[MANAGED_BY_LABEL := MANAGED_BY_VALUE, OWNER_UID_LABEL := item.uid, CLUSTER_LABEL := clusterName]
  }

  function SecretAnnotations(item: Item, source: Key): map<string, Value> {
    map[OWNER_ANNOTATION := Text(item.key.name), SOURCE_ANNOTATION := Text(source.namespace + "/" + source.name)]
  }

  predicate IsOwnedSecret(item: Item, s: Secret) {
    if item.uid != "" then Label(s, OWNER_UID_LABEL) == item.uid
    else Annotation(s, OWNER_ANNOTATION) == Text(item.key.name)
  }

  function Hash(kind: string, data: map<string, Bytes>): Digest {
    Sha256(SecretContent(kind, data))
  }

  function SourceKey(item: Item): Key {
    Key(item.key.namespace, item.spec.source)
  }

  /** DesiredSecret, with the content hash that Sync adds before it writes. */
  function DesiredSecret(item: Item, source: Secret, clusterName: string): Secret {
    var kind := if item.spec.kind != "" then item.spec.kind else source.kind;
    Secret(kind, source.data,
           item.spec.labels + SecretLabels(item, clusterName),
           item.spec.annotations + SecretAnnotations(item, SourceKey(item))
             + map[HASH_ANNOTATION := Hex(Hash(kind, source.data)), CONTENT_ANNOTATION := Text(CONTENT_HASH_VERSION)])
  }

  const OPERATOR_LABELS: set<string> := {MANAGED_BY_LABEL, OWNER_UID_LABEL, CLUSTER_LABEL}
  const OPERATOR_ANNOTATIONS: set<string> := {OWNER_ANNOTATION, SOURCE_ANNOTATION, HASH_ANNOTATION, CONTENT_ANNOTATION}

  /** The user's entries survive outside the operator's names, and there are no others. */
  ghost predicate KeepsEntries<V>(user: map<string, V>, written: map<string, V>, operators: set<string>) {
    && written.Keys == user.Keys + operators
    && forall key :: key in user && key !in operators ==> written[key] == user[key]
  }

  /**
   A faithful copy of the source for this item: its data, its type unless the item sets one, the user's labels and
   annotations, and the operator's marks, among them the hash of the very type and data it holds.
   */
  ghost predicate Copies(s: Secret, item: Item, source: Secret, clusterName: string) {
    && s.data == source.data
    && (item.spec.kind != "" ==> s.kind == item.spec.kind) && (item.spec.kind == "" ==> s.kind == source.kind)
    && KeepsEntries(item.spec.labels, s.labels, OPERATOR_LABELS)
    && s.labels[MANAGED_BY_LABEL] == "omni-cluster-operator"
    && s.labels[OWNER_UID_LABEL] == item.uid && s.labels[CLUSTER_LABEL] == clusterName
    && KeepsEntries(item.spec.annotations, s.annotations, OPERATOR_ANNOTATIONS)
    && s.annotations[OWNER_ANNOTATION] == Text(item.key.name)
    && s.annotations[SOURCE_ANNOTATION] == Text(item.key.namespace + "/" + item.spec.source)
    && s.annotations[HASH_ANNOTATION] == Hex(Sha256(SecretContent(s.kind, s.data)))
    && s.annotations[CONTENT_ANNOTATION] == Text("v1")
  }

  /** Marks merged over the user's entries. */
  lemma MergeKeeps<V>(user: map<string, V>, marks: map<string, V>)
    ensures KeepsEntries(user, user + marks, marks.Keys)
    ensures forall key :: key in marks ==> (user + marks)[key] == marks[key]
  {
  }

  lemma DesiredCopies(item: Item, source: Secret, clusterName: string)
    ensures Copies(DesiredSecret(item, source, clusterName), item, source, clusterName)
  {
    hide KeepsEntries;
    var d := DesiredSecret(item, source, clusterName);
    var labels := SecretLabels(item, clusterName);
    var marks := SecretAnnotations(item, SourceKey(item))
      + map[HASH_ANNOTATION := Hex(Hash(d.kind, d.data)), CONTENT_ANNOTATION := Text(CONTENT_HASH_VERSION)];
    MergeKeeps(item.spec.labels, labels);
    MergeKeeps(item.spec.annotations, marks);
    assert labels.Keys == OPERATOR_LABELS && marks.Keys == OPERATOR_ANNOTATIONS;
    assert d.annotations == item.spec.annotations + marks;
  }

  lemma EntriesAgree<V>(user: map<string, V>, a: map<string, V>, b: map<string, V>, operators: set<string>)
    requires KeepsEntries(user, a, operators) && KeepsEntries(user, b, operators)
    requires forall key :: key in operators ==> a[key] == b[key]
    ensures a == b
  {
    assert forall key :: key in a ==> key in operators || key in user;
  }

  /** The desired Secret is the one faithful copy there is. */
  lemma DesiredSecretIs(s: Secret, item: Item, source: Secret, clusterName: string)
    ensures s == DesiredSecret(item, source, clusterName) <==> Copies(s, item, source, clusterName)
  {
    DesiredCopies(item, source, clusterName);
    hide DesiredSecret, KeepsEntries;
    var d := DesiredSecret(item, source, clusterName);
    if Copies(s, item, source, clusterName) {
      EntriesAgree(item.spec.labels, s.labels, d.labels, OPERATOR_LABELS);
      EntriesAgree(item.spec.annotations, s.annotations, d.annotations, OPERATOR_ANNOTATIONS);
    }
  }

  /** Ownership is always by a mark that is there: the uid label, or for an item without uid the name annotation. */
  lemma OwnershipIsMarked(item: Item, s: Secret)
    requires item.key.name != ""
    ensures item.uid != "" ==>
      (IsOwnedSecret(item, s) <==> OWNER_UID_LABEL in s.labels && s.labels[OWNER_UID_LABEL] == item.uid)
    ensures item.uid == "" ==>
      (IsOwnedSecret(item, s) <==> OWNER_ANNOTATION in s.annotations && s.annotations[OWNER_ANNOTATION] == Text(item.key.name))
  {
  }

  /** Whatever labels and annotations the user asks for, the written Secret is recognised as owned. */
  lemma DesiredIsOwned(item: Item, source: Secret, clusterName: string)
    ensures IsOwnedSecret(item, DesiredSecret(item, source, clusterName))
  {
    assert DesiredSecret(item, source, clusterName).annotations[OWNER_ANNOTATION] == Text(item.key.name);
  }

  /** The recorded hash pins the content: two desired Secrets with one hash have one type and one data map. */
  lemma HashPinsContent(item: Item, source: Secret, item': Item, source': Secret, clusterName: string)
    requires Annotation(DesiredSecret(item, source, clusterName), HASH_ANNOTATION)
          == Annotation(DesiredSecret(item', source', clusterName), HASH_ANNOTATION)
    ensures source.data == source'.data
    ensures DesiredSecret(item, source, clusterName).kind == DesiredSecret(item', source', clusterName).kind
  {
    var d, d' := DesiredSecret(item, source, clusterName), DesiredSecret(item', source', clusterName);
    assert d.annotations[HASH_ANNOTATION] == Hex(Hash(d.kind, source.data));
    assert d'.annotations[HASH_ANNOTATION] == Hex(Hash(d'.kind, source'.data));
  }

  /** copyByteMap: a copy built entry by entry. */
  method CopyByteMap(input: map<string, Bytes>) returns (output: map<string, Bytes>)
    ensures output == input
  {
    output := map[];
    var keys := input.Keys;
    while keys != {}
      invariant keys <= input.Keys
      invariant output.Keys == input.Keys - keys
      invariant forall k :: k in output ==> output[k] == input[k]
      decreases keys
    {
      var k :| k in keys;
      output := output[k := input[k]];
      keys := keys - {k};
    }
  }

  /** How the workload API server answers the calls of one operation. */
  datatype Replies = Replies(client: bool, namespaceRead: bool, namespaceCreate: bool, read: bool, write: bool)

  datatype SyncResult = Synced(target: Key, kind: string, hash: Digest) | SyncError

  /** One workload cluster, with a count of the Secret writes it has accepted. */
  class Workload {
    var namespaces: set<string>
    var secrets: map<Key, Secret>
    var writes: nat

    method EnsureNamespace(namespace: string, r: Replies) returns (ok: bool)
      modifies this`namespaces
      ensures ok ==> namespace in namespaces
      ensures namespaces == old(namespaces) || (r.namespaceCreate && namespaces == old(namespaces) + {namespace})
      ensures r.namespaceRead && r.namespaceCreate ==> ok
    {
      if !r.namespaceRead {
        return false;
      }
      if namespace in namespaces {
        return true;
      }
      if !r.namespaceCreate {
        return false;
      }
      namespaces := namespaces + {namespace};
      return true;
    }

    /**
     Sync converges from any prior state: on success the target is a faithful copy of the source,
     nothing else has changed, and a write was made precisely if the target was not that already;
     so a second Sync of the same inputs writes nothing.  A refused Sync changes no Secret.
     */
    method Sync(item: Item, source: Secret, clusterName: string, r: Replies) returns (result: SyncResult)
      modifies this
      ensures result.SyncError? ==> secrets == old(secrets) && writes == old(writes)
      ensures result.Synced? ==>
        var desired := DesiredSecret(item, source, clusterName);
        var t := item.spec.target;
        && secrets == old(secrets)[t := desired] && Copies(secrets[t], item, source, clusterName)
        && result == Synced(t, secrets[t].kind, Sha256(SecretContent(secrets[t].kind, secrets[t].data)))
        && writes == old(writes) + (if t in old(secrets) && old(secrets)[t] == desired then 0 else 1)
      ensures (r == Replies(true, true, true, true, true)
               && (item.spec.createNamespace || item.spec.target.namespace in old(namespaces))) ==> result.Synced?
      ensures old(namespaces) <= namespaces <= old(namespaces) + {item.spec.target.namespace}
      ensures !item.spec.createNamespace ==> namespaces == old(namespaces)
    {
      DesiredCopies(item, source, clusterName);
      hide Copies;
      if !r.client {
        return SyncError;
      }
      var target := item.spec.target;
      if item.spec.createNamespace {
        var ok := EnsureNamespace(target.namespace, r);
        if !ok {
          return SyncError;
        }
      }
      var kind := source.kind;
      if item.spec.kind != "" {
        kind := item.spec.kind;
      }
      var data := CopyByteMap(source.data);
      var desired := Secret(kind, data, item.spec.labels + SecretLabels(item, clusterName),
                            item.spec.annotations + SecretAnnotations(item, SourceKey(item)));
      var hash := Hash(desired.kind, desired.data);
      desired := desired.(annotations := desired.annotations
        + map[HASH_ANNOTATION := Hex(hash), CONTENT_ANNOTATION := Text(CONTENT_HASH_VERSION)]);
      if !r.read {
        return SyncError;
      }
      if target in secrets && secrets[target] == desired {
        assert secrets == secrets[target := desired];
        return Synced(target, desired.kind, hash);
      }
      if !r.write || (target !in secrets && target.namespace !in namespaces) {
        return SyncError;
      }
      secrets := secrets[target := desired];
      writes := writes + 1;
      return Synced(target, desired.kind, hash);
    }

    /** Delete removes the target exactly when this item owns it. */
    method Delete(item: Item, target: Key, r: Replies) returns (ok: bool)
      modifies this`secrets, this`writes
      ensures !ok ==> secrets == old(secrets) && writes == old(writes)
      ensures ok ==> writes == old(writes) + (if secrets == old(secrets) then 0 else 1)
      ensures ok ==>
        var removes := target in old(secrets) && IsOwnedSecret(item, old(secrets)[target]);
        secrets == if removes then old(secrets) - {target} else old(secrets)
      ensures r.client && r.read && r.write ==> ok
    {
      if !r.client || !r.read {
        return false;
      }
      if target !in secrets {
        return true;
      }
      if !IsOwnedSecret(item, secrets[target]) {
        return true;
      }
      if !r.write {
        return false;
      }
      secrets := secrets - {target};
      writes := writes + 1;
      return true;
    }
  }
}
