/**
 internal/controller/omnisecretsync_controller.go as a small-step machine over one OmniSecretSync
 and the workload cluster it writes to.  Admission keeps the kubeconfig reference fixed, so there is
 one workload cluster.  Spec edits and the deletion mark may arrive between any two steps of a pass.
 */
module SecretSyncModel {
  import opened Kube
  import opened TrimmedText
  import opened SecretSync

  const REASON_SYNCED := "Synced"
  const REASON_SYNC_FAILED := "SyncFailed"
  const REASON_DELETE_FAILED := "DeleteFailed"
  const REASON_VALIDATION_FAILED := "ValidationFailed"

  /** What secretSyncSpecError lets through. */
  predicate SpecAccepted(spec: Spec) {
    && !Blank(spec.clusterRef)
    && !Blank(spec.kubeconfigName)
    && (spec.kubeconfigKey != "" ==> !Blank(spec.kubeconfigKey))
    && !Blank(spec.source)
    && !Blank(spec.target.name)
    && !Blank(spec.target.namespace)
    && (spec.kind != "" ==> !Blank(spec.kind))
    && spec.deletionPolicy in {POLICY_DELETE, POLICY_ORPHAN}
  }

  /** ValidateUpdate: a valid spec that keeps the destination cluster. */
  predicate Admitted(before: Spec, after: Spec) {
    && SpecAccepted(after)
    && before.kubeconfigName == after.kubeconfigName
    && before.kubeconfigKey == after.kubeconfigKey
  }

  predicate Applied(e: Effect) {
    !e.Refused?
  }

  /** What the reads of cluster, source Secret and kubeconfig give. */
  datatype Inputs = Broken | Missing(clusterExists: bool, reason: string) | Ready(clusterName: string, source: Secret)

  /** How far the pass got before it reports. */
  datatype Progress = BeforeCleanup | AfterCleanup(target: Key)

  datatype Report =
    | Success(target: Key, kind: string, hash: Digest)
    | Trouble(progress: Progress, acceptedKnown: bool, clusterExists: bool, reason: string)

  datatype Worker =
    | Idle
    | Checking(item: Item)
    | Cleaning(item: Item, clusterName: string, source: Secret)
    | Syncing(item: Item, clusterName: string, source: Secret)
    | Reporting(report: Report)
    | Removing(item: Item)
    | Releasing

  datatype World = World(uid: string, item: Option<Item>, workload: map<Key, Secret>, worker: Worker)

  datatype Step =
    // environment
    | EditSpec(spec: Spec)
    | MarkDeleted
    | EditWorkload(target: Key, secret: Option<Secret>)
    // the worker
    | Begin(ok: bool)
    | Check(inputs: Inputs)
    | Cleanup(effect: Effect)
    | SyncTarget(effect: Effect)
    | Commit(ok: bool)
    | Remove(readable: bool, reason: string, effect: Effect)
    | Release(ok: bool)

  predicate Owned(uid: string, s: Secret) {
    Label(s, OWNER_UID_LABEL) == uid
  }

  predicate RecordedSet(item: Item) {
    item.status.target.name != "" && item.status.target.namespace != ""
  }

  /** reconcileDelete deletes the recorded target, or the spec target if none is recorded. */
  function DeletionTarget(item: Item): Key {
    if RecordedSet(item) then item.status.target else item.spec.target
  }

  predicate CleanupNeeded(item: Item) {
    item.spec.deletionPolicy == POLICY_DELETE && RecordedSet(item) && item.status.target != item.spec.target
  }

  /** The workload after Client.Delete. */
  function Without(item: Item, workload: map<Key, Secret>, t: Key): map<Key, Secret> {
    if t in workload && IsOwnedSecret(item, workload[t]) then workload - {t} else workload
  }

  function ReportedReason(r: Report): string {
    match r
    case Success(_, _, _) => REASON_SYNCED
    case Trouble(_, _, _, reason) => if reason != "" then reason else REASON_SYNC_FAILED
  }

  /** updateSecretSyncStatus: a failure records the stored spec's target, a success the synced one. */
  function CommittedStatus(latest: Item, r: Report): Status {
    var g := latest.generation;
    var known := r.Success? || r.acceptedKnown;
    var accepted: Conditions :=
      if known then latest.status.conditions[CONDITION_ACCEPTED := AcceptedCondition(g, r.Success? || r.clusterExists)]
      else latest.status.conditions;
    var verdict := Condition(r.Success?, g, ReportedReason(r));
    Status(g, if r.Success? then r.target else latest.spec.target,
           if r.Success? then Some(r.hash) else latest.status.hash,
           accepted[CONDITION_SYNCED := verdict][CONDITION_READY := verdict])
  }

  predicate Enabled(w: World, s: Step) {
    match s
    case EditSpec(spec) => w.item.Some? && Admitted(w.item.value.spec, spec)
    case MarkDeleted => w.item.Some?
    case EditWorkload(t, secret) =>
      secret.Some? && Owned(w.uid, secret.value) ==> t in w.workload && Owned(w.uid, w.workload[t])
    case Begin(_) => w.worker.Idle?
    case Check(_) => w.worker.Checking?
    case Cleanup(_) => w.worker.Cleaning?
    case SyncTarget(_) => w.worker.Syncing?
    case Commit(ok) => w.worker.Reporting? && (ok ==> w.item.Some?)
    case Remove(_, _, _) => w.worker.Removing?
    case Release(ok) => w.worker.Releasing?
  }

  function Begun(w: World, ok: bool): World {
    if !ok || w.item.None? then w.(worker := Idle)
    else
      var item := w.item.value;
      if item.deleting then
        if !item.finalizer then w.(worker := Idle)
        else if item.spec.deletionPolicy == POLICY_ORPHAN then w.(worker := Releasing)
        else w.(worker := Removing(item))
      else if !item.finalizer then w.(item := Some(item.(finalizer := true)), worker := Idle)
      else if !SpecAccepted(item.spec) then
        w.(worker := Reporting(Trouble(BeforeCleanup, false, false, REASON_VALIDATION_FAILED)))
      else w.(worker := Checking(item))
  }

  function Checked(w: World, item: Item, inputs: Inputs): World {
    match inputs
    case Broken => w.(worker := Idle)
    case Missing(clusterExists, reason) =>
      w.(worker := Reporting(Trouble(BeforeCleanup, true, clusterExists, reason)))
    case Ready(clusterName, source) => w.(worker := Cleaning(item, clusterName, source))
  }

  function Cleaned(w: World, item: Item, clusterName: string, source: Secret, e: Effect): World {
    if !CleanupNeeded(item) then w.(worker := Syncing(item, clusterName, source))
    else
      var workload := if Applied(e) then Without(item, w.workload, item.status.target) else w.workload;
      if e.Done? then w.(workload := workload, worker := Syncing(item, clusterName, source))
      else w.(workload := workload, worker := Reporting(Trouble(BeforeCleanup, true, true, REASON_DELETE_FAILED)))
  }

  function SyncedTo(w: World, item: Item, clusterName: string, source: Secret, e: Effect): World {
    var desired := DesiredSecret(item, source, clusterName);
    var t := item.spec.target;
    w.(workload := if Applied(e) then w.workload[t := desired] else w.workload,
       worker := Reporting(if e.Done? then Success(t, desired.kind, Hash(desired.kind, desired.data))
                           else Trouble(AfterCleanup(t), true, true, "")))
  }

  function Committed(w: World, ok: bool, r: Report): World {
    if !ok || w.item.None? then w.(worker := Idle)
    else w.(item := Some(w.item.value.(status := CommittedStatus(w.item.value, r))), worker := Idle)
  }

  function Removed(w: World, item: Item, readable: bool, reason: string, e: Effect): World {
    if !readable then
      w.(worker := if reason == "" then Idle else Reporting(Trouble(BeforeCleanup, true, true, reason)))
    else
      var workload := if Applied(e) then Without(item, w.workload, DeletionTarget(item)) else w.workload;
      w.(workload := workload,
         worker := if e.Done? then Releasing else Reporting(Trouble(BeforeCleanup, true, true, REASON_DELETE_FAILED)))
  }

  /** removeFinalizer acts on the stored item; an item under deletion without finalizers vanishes. */
  function Released(w: World, ok: bool): World {
    if !ok || w.item.None? then w.(worker := Idle)
    else if w.item.value.deleting then w.(item := None, worker := Idle)
    else w.(item := Some(w.item.value.(finalizer := false)), worker := Idle)
  }

  function Apply(w: World, s: Step): World
    requires Enabled(w, s)
  {
    match s
    case EditSpec(spec) =>
      var item := w.item.value;
      w.(item := Some(item.(spec := spec, generation := item.generation + 1)))
    case MarkDeleted =>
      var item := w.item.value;
      w.(item := if item.finalizer then Some(item.(deleting := true)) else None)
    case EditWorkload(t, secret) =>
      w.(workload := if secret.Some? then w.workload[t := secret.value] else w.workload - {t})
    case Begin(ok) => Begun(w, ok)
    case Check(inputs) => Checked(w, w.worker.item, inputs)
    case Cleanup(e) => Cleaned(w, w.worker.item, w.worker.clusterName, w.worker.source, e)
    case SyncTarget(e) => SyncedTo(w, w.worker.item, w.worker.clusterName, w.worker.source, e)
    case Commit(ok) => Committed(w, ok, w.worker.report)
    case Remove(readable, reason, e) => Removed(w, w.worker.item, readable, reason, e)
    case Release(ok) => Released(w, ok)
  }

  ghost predicate IsRun(ws: seq<World>, steps: seq<Step>) {
    && |ws| == |steps| + 1
    && forall i :: 0 <= i < |steps| ==> Enabled(ws[i], steps[i]) && ws[i + 1] == Apply(ws[i], steps[i])
  }

  /** A freshly admitted item under the Delete policy; nothing in the workload is its own. */
  predicate Init(w: World) {
    && w.uid != ""
    && w.item.Some?
    && w.item.value.uid == w.uid
    && SpecAccepted(w.item.value.spec)
    && w.item.value.spec.deletionPolicy == POLICY_DELETE
    && !w.item.value.finalizer && !w.item.value.deleting
    && w.item.value.status == Status(0, Key("", ""), None, map[])
    && w.worker.Idle?
    && forall t :: t in w.workload ==> !Owned(w.uid, w.workload[t])
  }

  /** A trace of worlds and steps, grown by one step. */
  lemma Extend(ws: seq<World>, steps: seq<Step>, s: Step, v: World) returns (vs: seq<World>, ss: seq<Step>)
    requires IsRun(ws, steps) && Enabled(ws[|steps|], s) && v == Apply(ws[|steps|], s)
    ensures IsRun(vs, ss) && vs == ws + [v] && ss == steps + [s]
  {
    hide Apply, Enabled;
    vs, ss := ws + [v], steps + [s];
    forall i | 0 <= i < |ss| ensures Enabled(vs[i], ss[i]) && vs[i + 1] == Apply(vs[i], ss[i]) {
      if i < |steps| {
        assert vs[i] == ws[i] && vs[i + 1] == ws[i + 1] && ss[i] == steps[i];
      }
    }
  }
}
