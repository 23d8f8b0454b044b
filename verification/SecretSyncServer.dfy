/**
 The secret-sync reconciler as the program runs it, against a workload cluster it updates in place.
 An uninterrupted Reconcile is a run of the machine, so the machine's results are the program's.
 */
module SecretSyncServer {
  import opened Kube
  import opened SecretSync
  import opened SecretSyncModel

  datatype Outcome = Finished | RetryNow | RetryLater | Failed

  /** How the API server and the workload cluster answer during one pass. */
  datatype Foreign = Foreign(readItem: bool, inputs: Inputs, kubeconfigReadable: bool, kubeconfigReason: string,
                             cleanup: Replies, sync: Replies, commit: bool, release: bool)

  /** Held, valid and not under deletion. */
  predicate Live(item: Item) {
    !item.deleting && item.finalizer && SpecAccepted(item.spec)
  }

  /** Every call of the pass succeeds. */
  predicate Granted(o: Foreign, item: Item, namespaces: set<string>) {
    && o.commit && o.cleanup == o.sync == Replies(true, true, true, true, true)
    && (item.spec.createNamespace || item.spec.target.namespace in namespaces)
  }

  /** The status says that the last pass did not sync, and why. */
  predicate Refuses(item: Item, reason: string) {
    && CONDITION_READY in item.status.conditions && CONDITION_SYNCED in item.status.conditions
    && item.status.conditions[CONDITION_READY] == item.status.conditions[CONDITION_SYNCED]
         == Condition(false, item.generation, reason)
  }

  /**
   A pass over an item under deletion: one that the operator does not hold is left alone, under the Orphan policy no
   Secret is touched, and otherwise at most the one at the deletion target goes.
   */
  ghost predicate LetsGo(before: World, after: World, o: Foreign, out: Outcome)
    requires before.item.Some?
  {
    var item := before.item.value;
    if !item.finalizer then after.item == before.item && after.workload == before.workload
    else if item.spec.deletionPolicy == "Orphan" then
      after.workload == before.workload && (out.Finished? <==> o.release) && (o.release <==> after.item.None?)
    else
      && after.workload - {DeletionTarget(item)} == before.workload - {DeletionTarget(item)}
      && (o.kubeconfigReadable && o.cleanup.client && o.cleanup.read && o.cleanup.write && o.release ==> out.Finished?)
  }

  /**
   A pass over a live item: the finalizer first, then the spec check, then the dependencies, each failure with no Secret
   touched and its own report.
   */
  ghost predicate Keeps(before: World, after: World, o: Foreign, out: Outcome)
    requires before.item.Some?
  {
    var item := before.item.value;
    if !item.finalizer then
      after.item == Some(item.(finalizer := true)) && after.workload == before.workload
    else
      && after.item.Some? && after.item.value.(status := item.status) == item
      && (!SpecAccepted(item.spec) || !o.inputs.Ready? ==> after.workload == before.workload)
      && (!SpecAccepted(item.spec) && o.commit ==> Refuses(after.item.value, "ValidationFailed"))
      && (SpecAccepted(item.spec) && o.inputs.Missing? && o.inputs.reason != "" && o.commit ==>
            out.RetryLater? && Refuses(after.item.value, o.inputs.reason))
      && after.workload - {item.spec.target, item.status.target} == before.workload - {item.spec.target, item.status.target}
  }

  /** At most the status has changed. */
  ghost predicate OnlyStatus(before: Option<Item>, after: Option<Item>) {
    if before.None? then after.None? else after.Some? && after.value.(status := before.value.status) == before.value
  }

  lemma TroubleRefuses(latest: Item, r: Report, reason: string)
    requires r.Trouble? && r.reason == reason != ""
    ensures Refuses(latest.(status := CommittedStatus(latest, r)), reason)
  {
  }

  lemma RemoveIs(w: World, item: Item)
    requires w.worker == Removing(item)
    ensures forall readable, reason, e ::
      Enabled(w, Remove(readable, reason, e)) && Apply(w, Remove(readable, reason, e)) == Removed(w, item, readable, reason, e)
  {
  }

  class Server {
    const uid: string
    const cluster: Workload
    var item: Option<Item>
    ghost var worker: Worker

    constructor (item: Item, cluster: Workload)
      ensures this.item == Some(item) && this.uid == item.uid && this.cluster == cluster && worker == Idle
    {
      this.uid, this.cluster, this.item, this.worker := item.uid, cluster, Some(item), Idle;
    }

    ghost function State(): World
      reads this, cluster
    {
      World(uid, item, cluster.secrets, worker)
    }

    /** updateSecretSyncStatus on the item as it is stored now. */
    method UpdateStatus(r: Report, ok: bool) returns (err: bool)
      requires worker == Reporting(r)
      modifies this
      ensures err <==> !ok || old(item).None?
      ensures item == if err then old(item) else Some(old(item).value.(status := CommittedStatus(old(item).value, r)))
      ensures Enabled(old(State()), Commit(!err)) && State() == Apply(old(State()), Commit(!err)) && worker == Idle
    {
      worker := Idle;
      if !ok || item.None? {
        return true;
      }
      var latest := item.value;
      var status := latest.status.(observedGeneration := latest.generation, target := latest.spec.target);
      var known, found := true, true;
      match r {
        case Success(target, _, hash) => status := status.(target := target, hash := Some(hash));
        case Trouble(_, acceptedKnown, clusterExists, _) => known, found := acceptedKnown, clusterExists;
      }
      if known {
        status := status.(conditions := status.conditions[CONDITION_ACCEPTED := AcceptedCondition(latest.generation, found)]);
      }
      var verdict := Condition(r.Success?, latest.generation, ReportedReason(r));
      status := status.(conditions := status.conditions[CONDITION_SYNCED := verdict]);
      status := status.(conditions := status.conditions[CONDITION_READY := verdict]);
      item := Some(latest.(status := status));
      return false;
    }

    method Tell(r: Report, out0: Outcome, o: Foreign, ghost ws0: seq<World>, ghost steps0: seq<Step>)
      returns (out: Outcome, ghost ws: seq<World>, ghost steps: seq<Step>)
      requires worker == Reporting(r) && IsRun(ws0, steps0) && ws0[|steps0|] == State()
      modifies this
      ensures IsRun(ws, steps) && ws[0] == ws0[0] && ws[|steps|] == State() && worker == Idle
      ensures out == if o.commit && old(item).Some? then out0 else Failed
      ensures item == if o.commit && old(item).Some?
                then Some(old(item).value.(status := CommittedStatus(old(item).value, r))) else old(item)
    {
      hide Apply, Enabled, CommittedStatus;
      var err := UpdateStatus(r, o.commit);
      ws, steps := Extend(ws0, steps0, Commit(!err), State());
      out := if err then Failed else out0;
    }

    /** deletePreviousTargetSecret. */
    method DeletePreviousTargetSecret(snapshot: Item, r: Replies) returns (ok: bool)
      modifies cluster`secrets, cluster`writes
      ensures !CleanupNeeded(snapshot) ==> ok && cluster.secrets == old(cluster.secrets)
      ensures CleanupNeeded(snapshot) && ok ==>
                cluster.secrets == Without(snapshot, old(cluster.secrets), snapshot.status.target)
      ensures !ok ==> cluster.secrets == old(cluster.secrets)
      ensures cluster.secrets - {snapshot.status.target} == old(cluster.secrets) - {snapshot.status.target}
      ensures r.client && r.read && r.write ==> ok
    {
      if snapshot.spec.deletionPolicy != POLICY_DELETE || snapshot.status.target.name == ""
         || snapshot.status.target.namespace == "" {
        return true;
      }
      var current, previous := snapshot.spec.target, snapshot.status.target;
      if previous == current {
        return true;
      }
      ok := cluster.Delete(snapshot, previous, r);
    }

    /** reconcileDelete after its policy check. */
    method ReconcileDelete(snapshot: Item, o: Foreign, ghost ws0: seq<World>, ghost steps0: seq<Step>)
      returns (out: Outcome, ghost ws: seq<World>, ghost steps: seq<Step>)
      requires worker == Removing(snapshot) && IsRun(ws0, steps0) && ws0[|steps0|] == State()
      modifies this, cluster`secrets, cluster`writes
      ensures IsRun(ws, steps) && ws[0] == ws0[0] && ws[|steps|] == State() && worker == Idle
      ensures out.Finished? && old(item).Some? && old(item).value.deleting ==> item.None?
      ensures out.Finished? ==> Gone(snapshot)
      ensures cluster.secrets - {DeletionTarget(snapshot)} == old(cluster.secrets) - {DeletionTarget(snapshot)}
      ensures o.kubeconfigReadable && o.cleanup.client && o.cleanup.read && o.cleanup.write && o.release ==> out.Finished?
      ensures !out.RetryNow?
    {
      hide SpecAccepted, CommittedStatus, DesiredSecret, IsOwnedSecret, Apply, Enabled;
      ghost var before := State();
      RemoveIs(before, snapshot);
      if !o.kubeconfigReadable {
        if o.kubeconfigReason == "" {
          worker := Idle;
          ws, steps := Extend(ws0, steps0, Remove(false, "", Refused), State());
          return Failed, ws, steps;
        }
        var r := Trouble(BeforeCleanup, true, true, o.kubeconfigReason);
        worker := Reporting(r);
        ws, steps := Extend(ws0, steps0, Remove(false, o.kubeconfigReason, Refused), State());
        out, ws, steps := Tell(r, RetryLater, o, ws, steps);
        return;
      }
      var target := snapshot.spec.target;
      if snapshot.status.target.name != "" && snapshot.status.target.namespace != "" {
        target := snapshot.status.target;
      }
      var ok := cluster.Delete(snapshot, target, o.cleanup);
      if !ok {
        var r := Trouble(BeforeCleanup, true, true, REASON_DELETE_FAILED);
        worker := Reporting(r);
        ws, steps := Extend(ws0, steps0, Remove(true, "", Refused), State());
        out, ws, steps := Tell(r, Failed, o, ws, steps);
        return;
      }
      worker := Releasing;
      ws, steps := Extend(ws0, steps0, Remove(true, "", Done), State());
      out, ws, steps := RemoveFinalizer(o, ws, steps);
    }

    /** removeFinalizer. */
    method RemoveFinalizer(o: Foreign, ghost ws0: seq<World>, ghost steps0: seq<Step>)
      returns (out: Outcome, ghost ws: seq<World>, ghost steps: seq<Step>)
      requires worker == Releasing && IsRun(ws0, steps0) && ws0[|steps0|] == State()
      modifies this
      ensures IsRun(ws, steps) && ws[0] == ws0[0] && ws[|steps|] == State() && worker == Idle
      ensures out == if o.release then Finished else Failed
      ensures o.release && old(item).Some? && old(item).value.deleting ==> item.None?
      ensures !o.release ==> item == old(item)
    {
      worker := Idle;
      if o.release && item.Some? {
        var latest := item.value.(finalizer := false);
        item := if latest.deleting then None else Some(latest);
      }
      ws, steps := Extend(ws0, steps0, Release(o.release), State());
      out := if o.release then Finished else Failed;
    }

    /** Cleanup of the previous target, then Sync, then the report. */
    method CleanAndSync(snapshot: Item, clusterName: string, source: Secret, o: Foreign,
                        ghost ws0: seq<World>, ghost steps0: seq<Step>)
      returns (out: Outcome, ghost ws: seq<World>, ghost steps: seq<Step>)
      requires worker == Cleaning(snapshot, clusterName, source) && IsRun(ws0, steps0) && ws0[|steps0|] == State()
      modifies this, cluster
      ensures IsRun(ws, steps) && ws[0] == ws0[0] && ws[|steps|] == State() && worker == Idle
      ensures OnlyStatus(old(item), item)
      ensures cluster.secrets - {snapshot.spec.target, snapshot.status.target} == old(cluster.secrets) - {snapshot.spec.target, snapshot.status.target}
      ensures old(item).Some? && Granted(o, snapshot, old(cluster.namespaces)) ==> out.Finished?
      ensures !out.RetryNow?
      ensures out.Finished? ==> snapshot.spec.target in cluster.secrets
      ensures out.Finished? ==> Copies(cluster.secrets[snapshot.spec.target], snapshot, source, clusterName)
    {
      hide SpecAccepted, CommittedStatus, DesiredSecret, Without, Copies;
      ghost var was, both := cluster.secrets, {snapshot.spec.target, snapshot.status.target};
      var cleaned := DeletePreviousTargetSecret(snapshot, o.cleanup);
      ghost var swept := cluster.secrets;
      assert swept - both == (swept - {snapshot.status.target}) - both == (was - {snapshot.status.target}) - both == was - both;
      if !cleaned {
        var r := Trouble(BeforeCleanup, true, true, REASON_DELETE_FAILED);
        worker := Reporting(r);
        ws, steps := Extend(ws0, steps0, Cleanup(Refused), State());
        out, ws, steps := Tell(r, Failed, o, ws, steps);
        return;
      }
      worker := Syncing(snapshot, clusterName, source);
      ws, steps := Extend(ws0, steps0, Cleanup(Done), State());
      out, ws, steps := SyncAndTell(snapshot, clusterName, source, o, ws, steps);
      assert cluster.secrets - both == (cluster.secrets - {snapshot.spec.target}) - both
          == (swept - {snapshot.spec.target}) - both == swept - both;
    }

    method SyncAndTell(snapshot: Item, clusterName: string, source: Secret, o: Foreign,
                       ghost ws0: seq<World>, ghost steps0: seq<Step>)
      returns (out: Outcome, ghost ws: seq<World>, ghost steps: seq<Step>)
      requires worker == Syncing(snapshot, clusterName, source) && IsRun(ws0, steps0) && ws0[|steps0|] == State()
      modifies this, cluster
      ensures IsRun(ws, steps) && ws[0] == ws0[0] && ws[|steps|] == State() && worker == Idle
      ensures OnlyStatus(old(item), item)
      ensures cluster.secrets - {snapshot.spec.target} == old(cluster.secrets) - {snapshot.spec.target}
      ensures old(item).Some? && Granted(o, snapshot, old(cluster.namespaces)) ==> out.Finished?
      ensures !out.RetryNow?
      ensures out.Finished? ==> snapshot.spec.target in cluster.secrets
      ensures out.Finished? ==> Copies(cluster.secrets[snapshot.spec.target], snapshot, source, clusterName)
    {
      hide SpecAccepted, CommittedStatus, DesiredSecret, Without, Copies;
      var result := cluster.Sync(snapshot, source, clusterName, o.sync);
      if result.SyncError? {
        var r := Trouble(AfterCleanup(snapshot.spec.target), true, true, "");
        worker := Reporting(r);
        ws, steps := Extend(ws0, steps0, SyncTarget(Refused), State());
        out, ws, steps := Tell(r, Failed, o, ws, steps);
        return;
      }
      var r := Success(result.target, result.kind, result.hash);
      worker := Reporting(r);
      ws, steps := Extend(ws0, steps0, SyncTarget(Done), State());
      out, ws, steps := Tell(r, Finished, o, ws, steps);
    }

    /** The Secret that deletion is about is not, or no longer, this item's. */
    ghost predicate Gone(snapshot: Item)
      reads cluster
    {
      var t := DeletionTarget(snapshot);
      t in cluster.secrets ==> !IsOwnedSecret(snapshot, cluster.secrets[t])
    }

    /** The target holds exactly the Secret that the item and its inputs ask for. */
    ghost predicate Delivered(snapshot: Item, inputs: Inputs)
      reads cluster
    {
      && inputs.Ready? && snapshot.spec.target in cluster.secrets
      && Copies(cluster.secrets[snapshot.spec.target], snapshot, inputs.source, inputs.clusterName)
    }

    /**
     Reconcile, uninterrupted: a run of the machine from idle to idle.  A pass that finishes over a valid,
     finalized item has delivered its Secret; one that finishes over an item under deletion has let it go
     and, unless the policy is Orphan, left no Secret of its own at the deletion target.
     */
    method Reconcile(o: Foreign) returns (out: Outcome, ghost ws: seq<World>, ghost steps: seq<Step>)
      requires worker == Idle
      modifies this, cluster
      ensures IsRun(ws, steps) && ws[0] == old(State()) && ws[|steps|] == State() && worker == Idle
      ensures out.Finished? ==> o.readItem
      ensures out.RetryNow? <==> o.readItem && old(item).Some? && !old(item).value.deleting && !old(item).value.finalizer
      ensures out.Finished? && old(item).Some? && !old(item).value.deleting && SpecAccepted(old(item).value.spec) ==>
                Delivered(old(item).value, o.inputs)
      ensures out.Finished? && old(item).Some? && old(item).value.deleting && old(item).value.finalizer ==>
                item.None? && (old(item).value.spec.deletionPolicy != "Orphan" ==> Gone(old(item).value))
      ensures !o.readItem || old(item).None? ==> item == old(item) && cluster.secrets == old(cluster.secrets)
      ensures o.readItem && old(item).Some? && old(item).value.deleting ==> LetsGo(old(State()), State(), o, out)
      ensures o.readItem && old(item).Some? && !old(item).value.deleting ==> Keeps(old(State()), State(), o, out)
      ensures (o.readItem && old(item).Some? && Live(old(item).value) && o.inputs.Ready?
               && Granted(o, old(item).value, old(cluster.namespaces))) ==> out.Finished?
    {
      hide SpecAccepted, CommittedStatus, DesiredSecret, Without, Copies;
      ws, steps := [State()], [];
      if !o.readItem || item.None? {
        ws, steps := Extend(ws, steps, Begin(o.readItem), State());
        return if o.readItem then Finished else Failed, ws, steps;
      }
      var snapshot := item.value;
      if snapshot.deleting {
        if !snapshot.finalizer {
          ws, steps := Extend(ws, steps, Begin(true), State());
          return Finished, ws, steps;
        }
        if snapshot.spec.deletionPolicy == POLICY_ORPHAN {
          worker := Releasing;
          ws, steps := Extend(ws, steps, Begin(true), State());
          out, ws, steps := RemoveFinalizer(o, ws, steps);
          return;
        }
        worker := Removing(snapshot);
        ws, steps := Extend(ws, steps, Begin(true), State());
        out, ws, steps := ReconcileDelete(snapshot, o, ws, steps);
        return;
      }
      if !snapshot.finalizer {
        item := Some(snapshot.(finalizer := true));
        ws, steps := Extend(ws, steps, Begin(true), State());
        return RetryNow, ws, steps;
      }
      if !SpecAccepted(snapshot.spec) {
        var r := Trouble(BeforeCleanup, false, false, REASON_VALIDATION_FAILED);
        worker := Reporting(r);
        ws, steps := Extend(ws, steps, Begin(true), State());
        TroubleRefuses(snapshot, r, REASON_VALIDATION_FAILED);
        out, ws, steps := Tell(r, Finished, o, ws, steps);
        return;
      }
      worker := Checking(snapshot);
      ws, steps := Extend(ws, steps, Begin(true), State());
      out, ws, steps := Proceed(snapshot, o, ws, steps);
    }

    /** The dependency reads and what follows. */
    method Proceed(snapshot: Item, o: Foreign, ghost ws0: seq<World>, ghost steps0: seq<Step>)
      returns (out: Outcome, ghost ws: seq<World>, ghost steps: seq<Step>)
      requires worker == Checking(snapshot) && IsRun(ws0, steps0) && ws0[|steps0|] == State()
      modifies this, cluster
      ensures IsRun(ws, steps) && ws[0] == ws0[0] && ws[|steps|] == State() && worker == Idle
      ensures out.Finished? ==> Delivered(snapshot, o.inputs)
      ensures !out.RetryNow?
      ensures OnlyStatus(old(item), item)
      ensures cluster.secrets - {snapshot.spec.target, snapshot.status.target} == old(cluster.secrets) - {snapshot.spec.target, snapshot.status.target}
      ensures old(item).Some? && o.inputs.Ready? && Granted(o, snapshot, old(cluster.namespaces)) ==> out.Finished?
      ensures !o.inputs.Ready? ==> cluster.secrets == old(cluster.secrets)
      ensures o.inputs.Missing? && o.inputs.reason != "" && o.commit && old(item).Some? ==>
                out.RetryLater? && item.Some? && Refuses(item.value, o.inputs.reason)
    {
      hide SpecAccepted, CommittedStatus, DesiredSecret, Without, Copies;
      match o.inputs
      case Broken =>
        worker := Idle;
        ws, steps := Extend(ws0, steps0, Check(o.inputs), State());
        out := Failed;
      case Missing(clusterExists, reason) =>
        var r := Trouble(BeforeCleanup, true, clusterExists, reason);
        worker := Reporting(r);
        ws, steps := Extend(ws0, steps0, Check(o.inputs), State());
        if item.Some? && reason != "" {
          TroubleRefuses(item.value, r, reason);
        }
        hide Refuses;
        out, ws, steps := Tell(r, RetryLater, o, ws, steps);
      case Ready(clusterName, source) =>
        worker := Cleaning(snapshot, clusterName, source);
        ws, steps := Extend(ws0, steps0, Check(o.inputs), State());
        out, ws, steps := CleanAndSync(snapshot, clusterName, source, o, ws, steps);
    }
  }
}
