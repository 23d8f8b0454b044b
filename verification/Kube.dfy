/**
 The vocabulary every reconciler shares: object keys, byte strings, instants, digests, Secrets
 and status conditions.

 Instants and durations are integer nanoseconds.  SHA-256 is an injective constructor on what is
 hashed.  An annotation value is either the RFC 3339 text of an instant, the hexadecimal text of a
 digest, or any other text.
 */
module Kube {
  datatype Option<+T> = None | Some(value: T)

  /** A foreign call is done, or fails without effect, or fails after taking effect (its reply is lost). */
  datatype Effect = Done | Refused | Lost

  datatype Key = Key(namespace: string, name: string)

  newtype Byte = b: int | 0 <= b < 256
  type Bytes = seq<Byte>

  type Nanos = int
  const SECOND: Nanos := 1_000_000_000

  /** What the operator hashes: raw bytes, an export's generated-kubeconfig inputs, Secret content. */
  datatype Payload =
    | RawBytes(bytes: Bytes)
    | KubeconfigInputs(clusterName: string, targetKey: string, contextNamespace: string,
                       user: string, groups: seq<string>, ttl: Nanos)
    | SecretContent(kind: string, data: map<string, Bytes>)

  datatype Digest = Sha256(payload: Payload)

  datatype Value = Text(text: string) | Stamp(at: Nanos) | Hex(digest: Digest)

  datatype Secret = Secret(kind: string, data: map<string, Bytes>,
                           labels: map<string, string>, annotations: map<string, Value>)

  /** Go's map lookup: a missing key reads as the zero value. */
  function Label(s: Secret, key: string): string {
    if key in s.labels then s.labels[key] else ""
  }

  function Annotation(s: Secret, key: string): Value {
    if key in s.annotations then s.annotations[key] else Text("")
  }

  function Datum(s: Secret, key: string): Bytes {
    if key in s.data then s.data[key] else []
  }

  datatype Condition = Condition(holds: bool, generation: int, reason: string)

  /** Conditions are a list keyed by type, so an upsert is a map update. */
  type Conditions = map<string, Condition>

  const CONDITION_READY := "Ready"
  const CONDITION_ACCEPTED := "Accepted"
  const CONDITION_EXPORTED := "Exported"
  const CONDITION_SYNCED := "Synced"
  const CONDITION_VALIDATED := "Validated"

  const REASON_ACCEPTED := "Accepted"
  const REASON_MISSING_CLUSTER := "MissingCluster"

  function AcceptedCondition(generation: int, found: bool): Condition {
    if found then Condition(true, generation, REASON_ACCEPTED)
    else Condition(false, generation, REASON_MISSING_CLUSTER)
  }

  const POLICY_DELETE := "Delete"
  const POLICY_ORPHAN := "Orphan"

  const FINALIZER := "omni.texashpc.com/finalizer"
  const LEGACY_FINALIZER := "omni.texas-hpc.org/finalizer"
}
