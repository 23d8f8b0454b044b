/**
 internal/controller/omnikubeconfigexport_controller.go as a small-step machine.

 The world is the API server's exports, clusters, connections and Secrets, a clock, and one worker
 per export.  Each worker step is one interaction with the world (a read, a delete, a write, a
 status commit); steps of different workers and of the environment interleave freely.
 */
module ExportModel {
  import opened Kube
  import opened TrimmedText
  import opened KubeconfigExport

  const CLUSTER_ADMIN_GROUP := "system:masters"

  const REASON_EXPORTED := "Exported"
  const REASON_EXPORT_FAILED := "ExportFailed"
  const REASON_VALIDATION_FAILED := "ValidationFailed"
  const REASON_MISSING_CONNECTION := "MissingConnection"

  // ---------------------------------------------------------------- spec checks

  predicate GroupAccepted(spec: Spec, group: string) {
    && TrimSpace(group) != ""
    && (TrimSpace(group) == CLUSTER_ADMIN_GROUP ==> spec.allowClusterAdmin)
  }

  predicate LifetimeAccepted(spec: Spec) {
    && 0 < spec.ttl
    && (spec.renewBefore.Some? ==> 0 < spec.renewBefore.value < spec.ttl)
  }

  /** What kubeconfigExportSpecError lets through. */
  predicate SpecAccepted(spec: Spec) {
    && !Blank(spec.clusterRef)
    && !Blank(spec.targetName)
    && (spec.targetNamespace != "" ==> !Blank(spec.targetNamespace))
    && !Blank(TargetSecretKey(spec))
    && !Blank(spec.user)
    && spec.groups != []
    && (forall i :: 0 <= i < |spec.groups| ==> GroupAccepted(spec, spec.groups[i]))
    && LifetimeAccepted(spec)
    && spec.deletionPolicy in {POLICY_DELETE, POLICY_ORPHAN}
  }

  // ---------------------------------------------------------------- decisions on one Secret

  datatype Current = Current(hash: Digest, expiration: Nanos, lastRotation: Option<Nanos>, nextRotation: Nanos)

  /** currentKubeconfigSecretState: reuse only if spec hash, content hash and expiry all agree. */
  function CurrentState(s: Secret, targetKey: string, specHash: Digest, now: Nanos,
                        renewBefore: Option<Nanos>): Option<Current> {
    var data := Datum(s, targetKey);
    if data == [] || Annotation(s, SPEC_HASH_ANNOTATION) != Hex(specHash) then None
    else if Annotation(s, HASH_ANNOTATION) != Hex(Hash(data)) then None
    else
      match AnnotationTime(s, EXPIRATION_ANNOTATION)
      case NoTime => None
      case Malformed => None
      case At(expiration) =>
        if RotationDue(now, expiration, renewBefore) then None
        else
          match AnnotationTime(s, LAST_ROTATION_ANNOTATION)
          case Malformed => None
          case NoTime =>
            Some(Current(Hash(data), expiration, None, NextRotationTime(expiration, renewBefore)))
          case At(last) =>
            Some(Current(Hash(data), expiration, Some(last), NextRotationTime(expiration, renewBefore)))
  }

  /** The live check of an existing credential: only Stale proves it unusable. */
  datatype Verdict = Usable | Inconclusive | Stale

  function RequeueAfter(now: Nanos, nextRotation: Option<Nanos>): Nanos {
    if nextRotation.None? || nextRotation.value - now <= 0 then 0 else nextRotation.value - now
  }

  // ---------------------------------------------------------------- which Secret

  /** targetSecret reads the recorded target when one is recorded, the spec target otherwise. */
  function LookupKey(item: Export): Key {
    if item.status.targetName != "" && item.status.targetNamespace != ""
    then Key(item.status.targetNamespace, item.status.targetName)
    else SpecTarget(item)
  }

  function PreviousKey(item: Export): Key {
    Key(if item.status.targetNamespace == "" then item.key.namespace else item.status.targetNamespace,
        item.status.targetName)
  }

  predicate CleanupNeeded(item: Export) {
    && item.spec.deletionPolicy == POLICY_DELETE
    && item.status.targetName != ""
    && PreviousKey(item) != SpecTarget(item)
  }

  /** deletePreviousTargetSecret: the recorded Secret goes only if this export owns it. */
  predicate CleanupDeletes(item: Export, secrets: map<Key, Secret>) {
    && CleanupNeeded(item)
    && PreviousKey(item) in secrets
    && IsOwnedSecret(item, secrets[PreviousKey(item)])
  }

  predicate RemovalNeeded(item: Export) {
    item.spec.deletionPolicy == POLICY_DELETE && item.spec.targetName != ""
  }

  /** reconcileDelete: the Secret goes only under the Delete policy and if this export owns it. */
  predicate FinalDeletes(item: Export, secrets: map<Key, Secret>) {
    && RemovalNeeded(item)
    && LookupKey(item) in secrets
    && IsOwnedSecret(item, secrets[LookupKey(item)])
  }

  const NEW_SECRET := Secret("Opaque", map[], map[], map[])

  /** The Secret after a rotation: marks merged in, a superseded data key dropped, the new key set. */
  function Rewrite(base: Secret, item: Export, clusterName: string, kubeconfig: Bytes, now: Nanos): Secret {
    var key := TargetSecretKey(item.spec);
    var labels := base.labels + SecretLabels(item, clusterName);
    var annotations := base.annotations
      + SecretAnnotations(item, SpecHash(item, clusterName), Hash(kubeconfig), now + item.spec.ttl, now);
    var marked := base.(labels := labels, annotations := annotations);
    var kept :=
      if IsOwnedSecret(item, marked) && item.status.targetName == item.spec.targetName
         && item.status.targetKey != "" && item.status.targetKey != key
      then base.data - {item.status.targetKey} else base.data;
    marked.(data := kept[key := kubeconfig])
  }

  // ---------------------------------------------------------------- status

  datatype Report = Report(cluster: Option<string>, connection: Option<string>,
                           clusterExists: bool, acceptedKnown: bool, exported: bool,
                           hash: Option<Digest>, expiration: Option<Nanos>,
                           lastRotation: Option<Nanos>, nextRotation: Option<Nanos>, reason: string)

  /** A report claims success exactly when it carries a hash and an expiry. */
  predicate CoherentReport(r: Report) {
    r.exported <==> (r.hash.Some? && r.expiration.Some?)
  }

  function Failure(cluster: Option<string>, connection: Option<string>, clusterExists: bool,
                   acceptedKnown: bool, reason: string): (r: Report)
    ensures !r.exported && CoherentReport(r)
  {
    Report(cluster, connection, clusterExists, acceptedKnown, false, None, None, None, None, reason)
  }

  function Success(cluster: string, connection: string, hash: Digest, expiration: Nanos,
                   lastRotation: Option<Nanos>, nextRotation: Nanos): (r: Report)
    ensures r.exported && CoherentReport(r)
  {
    Report(Some(cluster), Some(connection), true, true, true, Some(hash), Some(expiration),
           lastRotation, Some(nextRotation), "")
  }

  /** The API server stores timestamps as RFC 3339 text too. */
  function Stored(t: Option<Nanos>): Option<Nanos> {
    if t.None? then None else Some(FloorSecond(t.value))
  }

  function ReportedReason(r: Report): string {
    if r.exported then REASON_EXPORTED
    else if r.acceptedKnown && !r.clusterExists then REASON_MISSING_CLUSTER
    else if r.reason != "" then r.reason else REASON_EXPORT_FAILED
  }

  /** updateKubeconfigExportStatus: the recorded target is the stored spec's, whatever the outcome. */
  function CommittedStatus(latest: Export, r: Report): Status {
    var g := latest.generation;
    var accepted: Conditions :=
      if r.acceptedKnown
      then latest.status.conditions[CONDITION_ACCEPTED := AcceptedCondition(g, r.clusterExists)]
      else latest.status.conditions;
    var verdict := Condition(r.exported, g, ReportedReason(r));
    latest.status.(
      observedGeneration := g,
      clusterRef := latest.spec.clusterRef,
      targetName := latest.spec.targetName,
      targetNamespace := TargetSecretNamespace(latest),
      targetKey := TargetSecretKey(latest.spec),
      clusterName := if r.cluster.Some? then r.cluster.value else latest.status.clusterName,
      connectionRef := if r.connection.Some? then r.connection.value else latest.status.connectionRef,
      hash := r.hash,
      expiration := Stored(r.expiration),
      lastRotation := Stored(r.lastRotation),
      nextRotation := Stored(r.nextRotation),
      conditions := accepted[CONDITION_EXPORTED := verdict][CONDITION_READY := verdict])
  }

  // ---------------------------------------------------------------- the machine

  datatype Cluster = Cluster(specName: string, connectionRef: string)

  /** omnitemplate.ClusterName: the spec's name, or the object's. */
  function ClusterName(name: string, c: Cluster): string {
    if c.specName != "" then c.specName else name
  }

  /** One pass of Reconcile past its dependencies: the item as read, and the clock as read. */
  datatype Pass = Pass(item: Export, clusterName: string, connection: string, now: Nanos)

  datatype Found = Found(key: Key, secret: Secret)

  datatype Worker =
    | Idle
    | Resolving(item: Export)
    | Cleaning(pass: Pass)
    | Looking(pass: Pass)
    | Generating(pass: Pass, base: Option<Found>)
    | Writing(pass: Pass, base: Option<Found>, kubeconfig: Bytes)
    | Reporting(report: Report)
    | Removing(item: Export)
    | Releasing(item: Export)

  /** The export read by the reconcile pass in progress. */
  function Snapshot(p: Worker): Option<Export> {
    match p
    case Idle => None
    case Resolving(item) => Some(item)
    case Cleaning(pass) => Some(pass.item)
    case Looking(pass) => Some(pass.item)
    case Generating(pass, _) => Some(pass.item)
    case Writing(pass, _, _) => Some(pass.item)
    case Reporting(_) => None
    case Removing(item) => Some(item)
    case Releasing(item) => Some(item)
  }

  function PassOf(p: Worker): Option<Pass> {
    match p
    case Cleaning(pass) => Some(pass)
    case Looking(pass) => Some(pass)
    case Generating(pass, _) => Some(pass)
    case Writing(pass, _, _) => Some(pass)
    case _ => None
  }

  datatype World = World(now: Nanos, exports: map<Key, Export>, clusters: map<Key, Cluster>,
                         connections: set<Key>, secrets: map<Key, Secret>, workers: map<Key, Worker>)

  function WorkerOf(w: World, k: Key): Worker {
    if k in w.workers then w.workers[k] else Idle
  }

  datatype Step =
    // environment
    | Tick(to: Nanos)
    | Create(k: Key, uid: string, spec: Spec)
    | EditSpec(k: Key, spec: Spec)
    | MarkDeleted(k: Key)
    | SetCluster(k: Key, cluster: Option<Cluster>)
    | SetConnection(k: Key, present: bool)
    | EditSecret(k: Key, secret: Option<Secret>)
    // one worker
    | Begin(k: Key, ok: bool)
    | Resolve(k: Key, ok: bool)
    | Cleanup(k: Key, effect: Effect)
    | Lookup(k: Key, ok: bool, verdict: Verdict)
    | Generate(k: Key, issued: Option<Bytes>)
    | WriteSecret(k: Key, effect: Effect)
    | Commit(k: Key, ok: bool)
    | Remove(k: Key, effect: Effect)
    | Release(k: Key, ok: bool)

  /** The environment may drop the operator's marks from a Secret, but not forge or alter them. */
  predicate MarksNotForged(before: map<Key, Secret>, k: Key, s: Secret) {
    && (forall a :: a in MANAGED_ANNOTATIONS && a in s.annotations ==>
          k in before && a in before[k].annotations && before[k].annotations[a] == s.annotations[a])
    && (OWNER_UID_LABEL in s.labels ==>
          k in before && OWNER_UID_LABEL in before[k].labels
          && before[k].labels[OWNER_UID_LABEL] == s.labels[OWNER_UID_LABEL])
  }

  /** Where a write of this pass lands: the Secret it found, or a new one at the spec target. */
  function WriteKey(pass: Pass, base: Option<Found>): Key {
    if base.Some? then base.value.key else SpecTarget(pass.item)
  }

  /**
   The API server accepts an Update only against the version that was read, and a Create only where
   nothing exists.  Comparing values is weaker than comparing versions, and every write may also be
   refused for other reasons.
   */
  predicate WriteAccepted(w: World, pass: Pass, base: Option<Found>) {
    if base.Some? then base.value.key in w.secrets && w.secrets[base.value.key] == base.value.secret
    else SpecTarget(pass.item) !in w.secrets
  }

  predicate Enabled(w: World, s: Step) {
    match s
    case Tick(to) => w.now <= to
    case Create(k, uid, spec) => k !in w.exports && uid != "" && k.namespace != "" && k.name != ""
    case EditSpec(k, spec) => k in w.exports
    case MarkDeleted(k) => k in w.exports
    case SetCluster(_, _) => true
    case SetConnection(_, _) => true
    case EditSecret(k, secret) => secret.Some? ==> MarksNotForged(w.secrets, k, secret.value)
    case Begin(k, _) => WorkerOf(w, k).Idle?
    case Resolve(k, _) => WorkerOf(w, k).Resolving?
    case Cleanup(k, _) => WorkerOf(w, k).Cleaning?
    case Lookup(k, _, _) => WorkerOf(w, k).Looking?
    case Generate(k, _) => WorkerOf(w, k).Generating?
    case WriteSecret(k, e) =>
      var p := WorkerOf(w, k);
      p.Writing? && (!e.Refused? ==> WriteAccepted(w, p.pass, p.base))
    case Commit(k, ok) => WorkerOf(w, k).Reporting? && (ok ==> k in w.exports)
    case Remove(k, _) => WorkerOf(w, k).Removing?
    case Release(k, ok) =>
      var p := WorkerOf(w, k);
      p.Releasing? && (ok ==> k in w.exports && w.exports[k] == p.item)
  }

  function Goto(w: World, k: Key, p: Worker): World {
    w.(workers := w.workers[k := p])
  }

  /** Reconcile up to the dependency reads. */
  function Begun(w: World, k: Key, ok: bool): (r: World)
    ensures k in r.workers && r == w.(exports := r.exports, workers := w.workers[k := r.workers[k]])
    ensures forall x :: x in r.exports <==> x in w.exports
    ensures forall x :: x in w.exports ==> r.exports[x] == w.exports[x] || (x == k && r.exports[x] == w.exports[x].(finalizer := true))
    ensures PassOf(r.workers[k]).None? && !r.workers[k].Writing?
    ensures Snapshot(r.workers[k]).Some? ==> k in w.exports && Snapshot(r.workers[k]) == Some(w.exports[k])
    ensures r.workers[k].Reporting? ==> CoherentReport(r.workers[k].report)
  {
    if !ok || k !in w.exports then Goto(w, k, Idle)
    else
      var item := w.exports[k];
      if item.deleting then
        if item.finalizer then Goto(w, k, Removing(item)) else Goto(w, k, Idle)
      else if !item.finalizer then
        Goto(w, k, Idle).(exports := w.exports[k := item.(finalizer := true)])
      else if !SpecAccepted(item.spec) then
        Goto(w, k, Reporting(Failure(None, None, false, false, REASON_VALIDATION_FAILED)))
      else
        Goto(w, k, Resolving(item))
  }

  /** exportCluster, exportConnection and the clock. */
  function Resolved(w: World, k: Key, ok: bool, item: Export): (r: World)
    ensures k in r.workers && r == w.(workers := w.workers[k := r.workers[k]]) && !r.workers[k].Writing?
    ensures PassOf(r.workers[k]).Some? ==> PassOf(r.workers[k]).value.now == w.now
    ensures Snapshot(r.workers[k]).Some? ==> Snapshot(r.workers[k]) == Some(item)
    ensures r.workers[k].Reporting? ==> CoherentReport(r.workers[k].report)
  {
    var ck := Key(k.namespace, item.spec.clusterRef);
    if !ok then Goto(w, k, Idle)
    else if ck !in w.clusters then
      Goto(w, k, Reporting(Failure(None, None, false, true, REASON_MISSING_CLUSTER)))
    else
      var cluster := w.clusters[ck];
      var name := ClusterName(ck.name, cluster);
      if Key(k.namespace, cluster.connectionRef) !in w.connections then
        Goto(w, k, Reporting(Failure(Some(name), None, true, true, REASON_MISSING_CONNECTION)))
      else
        Goto(w, k, Cleaning(Pass(item, name, cluster.connectionRef, w.now)))
  }

  /** deletePreviousTargetSecret: read, check ownership and delete as one step. */
  function Cleaned(w: World, k: Key, e: Effect, pass: Pass): (r: World)
    ensures r.workers == w.workers[k := if e.Done? || !CleanupNeeded(pass.item) then Looking(pass) else Idle]
    ensures r == w.(secrets := r.secrets, workers := r.workers)
    ensures r.secrets == w.secrets || (CleanupDeletes(pass.item, w.secrets) && r.secrets == w.secrets - {PreviousKey(pass.item)})
  {
    Goto(w, k, if e.Done? || !CleanupNeeded(pass.item) then Looking(pass) else Idle).(secrets :=
      if !e.Refused? && CleanupDeletes(pass.item, w.secrets) then w.secrets - {PreviousKey(pass.item)} else w.secrets)
  }

  /** The credential a pass would reuse, if the Secret it looks up still carries one. */
  function Reusable(w: World, pass: Pass, verdict: Verdict): Option<Current> {
    var key := LookupKey(pass.item);
    if key !in w.secrets || verdict.Stale? then None
    else
      CurrentState(w.secrets[key], TargetSecretKey(pass.item.spec), SpecHash(pass.item, pass.clusterName),
                   pass.now, pass.item.spec.renewBefore)
  }

  function LookedUp(w: World, k: Key, ok: bool, verdict: Verdict, pass: Pass): (r: World)
    ensures k in r.workers && r == w.(workers := w.workers[k := r.workers[k]]) && !r.workers[k].Writing?
    ensures Snapshot(r.workers[k]).Some? ==> Snapshot(r.workers[k]) == Some(pass.item) && PassOf(r.workers[k]) == Some(pass)
    ensures r.workers[k].Reporting? ==> CoherentReport(r.workers[k].report)
  {
    if !ok then Goto(w, k, Idle)
    else
      var key := LookupKey(pass.item);
      var current := Reusable(w, pass, verdict);
      if current.Some? then
        var c := current.value;
        Goto(w, k, Reporting(Success(pass.clusterName, pass.connection, c.hash, c.expiration,
                                     c.lastRotation, c.nextRotation)))
      else
        Goto(w, k, Generating(pass, if key in w.secrets then Some(Found(key, w.secrets[key])) else None))
  }

  function Generated(w: World, k: Key, issued: Option<Bytes>, pass: Pass, base: Option<Found>): (r: World)
    ensures k in r.workers && r == w.(workers := w.workers[k := r.workers[k]])
    ensures if issued.Some? then r.workers[k] == Writing(pass, base, issued.value)
            else r.workers[k].Reporting? && CoherentReport(r.workers[k].report)
  {
    match issued
    case None =>
      Goto(w, k, Reporting(Failure(Some(pass.clusterName), Some(pass.connection), true, true, REASON_EXPORT_FAILED)))
    case Some(kubeconfig) =>
      Goto(w, k, Writing(pass, base, kubeconfig))
  }

  /** What a successful rotation reports. */
  function RotationReport(pass: Pass, kubeconfig: Bytes): Report {
    var expiration := pass.now + pass.item.spec.ttl;
    Success(pass.clusterName, pass.connection, Hash(kubeconfig), expiration, Some(pass.now),
            NextRotationTime(expiration, pass.item.spec.renewBefore))
  }

  function Written(w: World, k: Key, e: Effect, pass: Pass, base: Option<Found>, kubeconfig: Bytes): (r: World)
    ensures k in r.workers && r == w.(secrets := r.secrets, workers := w.workers[k := r.workers[k]])
    ensures !e.Refused? ==> r.secrets.Keys == w.secrets.Keys + {WriteKey(pass, base)}
    ensures e.Refused? ==> r.secrets == w.secrets
    ensures r.workers[k].Idle? || (r.workers[k].Reporting? && CoherentReport(r.workers[k].report))
  {
    if e.Refused? then Goto(w, k, Idle)
    else
      var from := if base.Some? then base.value.secret else NEW_SECRET;
      Goto(w, k, if e.Done? then Reporting(RotationReport(pass, kubeconfig)) else Idle).(secrets :=
        w.secrets[WriteKey(pass, base) := Rewrite(from, pass.item, pass.clusterName, kubeconfig, pass.now)])
  }

  function Committed(w: World, k: Key, ok: bool, report: Report): (r: World)
    ensures r == w.(exports := r.exports, workers := w.workers[k := Idle])
    ensures r.exports == w.exports || (k in w.exports && r.exports ==
              w.exports[k := w.exports[k].(status := CommittedStatus(w.exports[k], report))])
  {
    if !ok || k !in w.exports then Goto(w, k, Idle)
    else
      var latest := w.exports[k];
      Goto(w, k, Idle).(exports := w.exports[k := latest.(status := CommittedStatus(latest, report))])
  }

  function Removed(w: World, k: Key, e: Effect, item: Export): (r: World)
    ensures r.workers == w.workers[k := if e.Done? || !RemovalNeeded(item) then Releasing(item) else Idle]
    ensures r == w.(secrets := r.secrets, workers := r.workers)
    ensures r.secrets == w.secrets || (FinalDeletes(item, w.secrets) && r.secrets == w.secrets - {LookupKey(item)})
  {
    Goto(w, k, if e.Done? || !RemovalNeeded(item) then Releasing(item) else Idle).(secrets :=
      if !e.Refused? && FinalDeletes(item, w.secrets) then w.secrets - {LookupKey(item)} else w.secrets)
  }

  function Apply(w: World, s: Step): World
    requires Enabled(w, s)
  {
    match s
    case Tick(to) => w.(now := to)
    case Create(k, uid, spec) =>
      w.(exports := w.exports[k := Export(k, uid, 1, false, false, spec, EMPTY_STATUS)])
    case EditSpec(k, spec) =>
      var e := w.exports[k];
      w.(exports := w.exports[k := e.(spec := spec, generation := e.generation + 1)])
    case MarkDeleted(k) =>
      var e := w.exports[k];
      w.(exports := if e.finalizer then w.exports[k := e.(deleting := true)] else w.exports - {k})
    case SetCluster(k, cluster) =>
      w.(clusters := if cluster.Some? then w.clusters[k := cluster.value] else w.clusters - {k})
    case SetConnection(k, present) =>
      w.(connections := if present then w.connections + {k} else w.connections - {k})
    case EditSecret(k, secret) =>
      w.(secrets := if secret.Some? then w.secrets[k := secret.value] else w.secrets - {k})
    case Begin(k, ok) => Begun(w, k, ok)
    case Resolve(k, ok) => Resolved(w, k, ok, w.workers[k].item)
    case Cleanup(k, e) => Cleaned(w, k, e, w.workers[k].pass)
    case Lookup(k, ok, verdict) => LookedUp(w, k, ok, verdict, w.workers[k].pass)
    case Generate(k, issued) => Generated(w, k, issued, w.workers[k].pass, w.workers[k].base)
    case WriteSecret(k, e) => Written(w, k, e, w.workers[k].pass, w.workers[k].base, w.workers[k].kubeconfig)
    case Commit(k, ok) => Committed(w, k, ok, w.workers[k].report)
    case Remove(k, e) => Removed(w, k, e, w.workers[k].item)
    case Release(k, ok) =>
      if ok then Goto(w, k, Idle).(exports := w.exports - {k}) else Goto(w, k, Idle)
  }

  // ---------------------------------------------------------------- runs

  ghost predicate IsRun(ws: seq<World>, steps: seq<Step>) {
    && |ws| == |steps| + 1
    && forall i :: 0 <= i < |steps| ==> Enabled(ws[i], steps[i]) && ws[i + 1] == Apply(ws[i], steps[i])
  }

  /** Nothing of the operator's exists yet; the Secrets that do exist carry none of its marks. */
  predicate Init(w: World) {
    && w.exports == map[]
    && w.workers == map[]
    && forall k :: k in w.secrets ==>
         OWNER_UID_LABEL !in w.secrets[k].labels
         && forall a :: a in MANAGED_ANNOTATIONS ==> a !in w.secrets[k].annotations
  }
}
