/**
 What a secret sync's status says, and which of its steps may take a Secret away, over every run: user edits
 and deletion marks may fall between any two steps of a pass, and the policy may be either.
 */
module SecretSyncReports {
  import opened Kube
  import opened SecretSync
  import opened SecretSyncModel

  predicate ByUser(s: Step) {
    s.EditSpec? || s.MarkDeleted? || s.EditWorkload?
  }

  /** A worker changes by its own steps alone. */
  lemma WorkerAfter(w: World, s: Step)
    requires Enabled(w, s) && ByUser(s)
    ensures Apply(w, s).worker == w.worker
  {
    hide SpecAccepted;
  }

  // ---------------------------------------------------------------- what may go

  /** A pass that cleans or syncs works on a live item; one that removes, on a held item under deletion and not Orphan. */
  predicate Entitled(p: Worker) {
    match p
    case Checking(item) => !item.deleting && item.finalizer && SpecAccepted(item.spec)
    case Cleaning(item, _, _) => !item.deleting && item.finalizer && SpecAccepted(item.spec)
    case Syncing(item, _, _) => !item.deleting && item.finalizer && SpecAccepted(item.spec)
    case Removing(item) => item.deleting && item.finalizer && item.spec.deletionPolicy != POLICY_ORPHAN
    case _ => true
  }

  lemma EntitledAfter(w: World, s: Step)
    requires Enabled(w, s) && Entitled(w.worker)
    ensures Entitled(Apply(w, s).worker)
  {
    hide SpecAccepted, DesiredSecret, CommittedStatus, Without;
  }

  lemma {:induction false} AlwaysEntitled(ws: seq<World>, steps: seq<Step>, n: nat)
    requires IsRun(ws, steps) && n < |ws| && ws[0].worker.Idle?
    ensures Entitled(ws[n].worker)
    decreases n
  {
    hide Apply, Enabled, SpecAccepted;
    if n > 0 {
      AlwaysEntitled(ws, steps, n - 1);
      EntitledAfter(ws[n - 1], steps[n - 1]);
    }
  }

  /** How one step can change the workload. */
  lemma WorkloadAfter(w: World, s: Step, t: Key)
    requires Enabled(w, s) && !s.EditWorkload?
    ensures
      var v := Apply(w, s);
      && (t in w.workload && t !in v.workload ==>
            && (s.Cleanup? || s.Remove?) && IsOwnedSecret(w.worker.item, w.workload[t])
            && (s.Cleanup? ==> w.worker.item.spec.deletionPolicy == POLICY_DELETE)
            && (s.Cleanup? ==> t == w.worker.item.status.target != w.worker.item.spec.target)
            && (s.Remove? ==> t == DeletionTarget(w.worker.item)))
      && (t in v.workload && !(t in w.workload && w.workload[t] == v.workload[t]) ==>
            s.SyncTarget? && t == w.worker.item.spec.target
            && v.workload[t] == DesiredSecret(w.worker.item, w.worker.source, w.worker.clusterName))
  {
    hide SpecAccepted, DesiredSecret, CommittedStatus, IsOwnedSecret;
  }

  /**
   Over any run, under either policy, the operator takes away only a Secret it owns: the recorded one, when a live item
   under the Delete policy has moved on to another; or, when the item is being deleted and its policy is not Orphan,
   the recorded one, or the spec's if none is recorded.
   */
  lemma SecretGoesOnlyByPolicy(ws: seq<World>, steps: seq<Step>, n: nat, t: Key)
    requires IsRun(ws, steps) && n < |steps| && ws[0].worker.Idle?
    requires t in ws[n].workload && t !in ws[n + 1].workload && !steps[n].EditWorkload?
    ensures steps[n].Cleanup? || steps[n].Remove?
    ensures
      var item := ws[n].worker.item;
      && IsOwnedSecret(item, ws[n].workload[t])
      && (steps[n].Cleanup? ==> !item.deleting && item.spec.deletionPolicy == POLICY_DELETE && t == item.status.target != item.spec.target)
      && (steps[n].Remove? ==> item.deleting && item.spec.deletionPolicy != POLICY_ORPHAN)
      && (steps[n].Remove? ==>
            t == if item.status.target.name != "" && item.status.target.namespace != "" then item.status.target else item.spec.target)
  {
    hide Apply, Enabled, SpecAccepted;
    AlwaysEntitled(ws, steps, n);
    WorkloadAfter(ws[n], steps[n], t);
    WorkerIs(ws[n], steps[n]);
  }

  lemma WorkerIs(w: World, s: Step)
    requires Enabled(w, s)
    ensures s.Cleanup? ==> w.worker.Cleaning?
    ensures s.Remove? ==> w.worker.Removing?
    ensures s.SyncTarget? ==> w.worker.Syncing?
    ensures s == Commit(true) ==> w.worker.Reporting? && w.item.Some?
  {
  }

  /** And it writes only faithful copies, at the target of a live, valid item. */
  lemma SecretWrittenIsCopy(ws: seq<World>, steps: seq<Step>, n: nat, t: Key)
    requires IsRun(ws, steps) && n < |steps| && ws[0].worker.Idle? && !steps[n].EditWorkload?
    requires t in ws[n + 1].workload && !(t in ws[n].workload && ws[n].workload[t] == ws[n + 1].workload[t])
    ensures steps[n].SyncTarget? && ws[n].worker.Syncing?
    ensures
      var p := ws[n].worker;
      && t == p.item.spec.target && !p.item.deleting && SpecAccepted(p.item.spec)
      && Copies(ws[n + 1].workload[t], p.item, p.source, p.clusterName)
  {
    hide Apply, Enabled, SpecAccepted, Copies, DesiredSecret;
    AlwaysEntitled(ws, steps, n);
    WorkloadAfter(ws[n], steps[n], t);
    WorkerIs(ws[n], steps[n]);
    DesiredCopies(ws[n].worker.item, ws[n].worker.source, ws[n].worker.clusterName);
  }

  /** An item goes only when its user deletes it: at once if the operator does not hold it, else when a pass lets it go. */
  lemma ItemGoesOnlyIfDeleted(w: World, s: Step)
    requires Enabled(w, s) && w.item.Some? && Apply(w, s).item.None?
    ensures s == MarkDeleted || (s == Release(true) && w.item.value.deleting)
    ensures s == MarkDeleted ==> !w.item.value.finalizer
  {
    hide SpecAccepted, DesiredSecret, CommittedStatus, Without;
  }

  // ---------------------------------------------------------------- what the status says

  /** How the step that ends a pass ends it, by its reason. */
  function Reason(s: Step): string {
    match s
    case Begin(_) => "ValidationFailed"
    case Check(Missing(_, reason)) => if reason == "" then "SyncFailed" else reason
    case Cleanup(_) => "DeleteFailed"
    case SyncTarget(e) => if e.Done? then "Synced" else "SyncFailed"
    case Remove(readable, reason, _) => if readable then "DeleteFailed" else reason
    case _ => ""
  }

  /** The cluster is known to exist once the dependency reads got past it. */
  predicate SaysCluster(s: Step, before: Conditions, after: Conditions, generation: int) {
    if s.Begin? then
      && (CONDITION_ACCEPTED in after <==> CONDITION_ACCEPTED in before)
      && (CONDITION_ACCEPTED in after ==> after[CONDITION_ACCEPTED] == before[CONDITION_ACCEPTED])
    else
      && CONDITION_ACCEPTED in after && after[CONDITION_ACCEPTED].generation == generation
      && (after[CONDITION_ACCEPTED].holds <==> (s.Check? && s.inputs.Missing? ==> s.inputs.clusterExists))
      && after[CONDITION_ACCEPTED].reason == (if after[CONDITION_ACCEPTED].holds then "Accepted" else "MissingCluster")
  }

  /** The status committed on `latest` by a pass that step s at world w ended. */
  ghost predicate Says(w: World, s: Step, latest: Item, status: Status) {
    && status.observedGeneration == latest.generation
    && SaysCluster(s, latest.status.conditions, status.conditions, latest.generation)
    && CONDITION_SYNCED in status.conditions && CONDITION_READY in status.conditions
    && status.conditions[CONDITION_SYNCED] == status.conditions[CONDITION_READY]
         == Condition(s == SyncTarget(Done), latest.generation, Reason(s))
    && if s == SyncTarget(Done) then
         && w.worker.Syncing? && status.target == w.worker.item.spec.target
         && status.hash == Some(Sha256(SecretContent(
              if w.worker.item.spec.kind != "" then w.worker.item.spec.kind else w.worker.source.kind, w.worker.source.data)))
       else status.target == latest.spec.target && status.hash == latest.status.hash
  }

  /** The step at w ended the pass with this report. */
  ghost predicate Ended(w: World, s: Step, r: Report) {
    forall latest: Item :: Says(w, s, latest, CommittedStatus(latest, r))
  }

  lemma BeginEnds(w: World, s: Step)
    requires Enabled(w, s) && !ByUser(s) && Apply(w, s).worker.Reporting?
    ensures Ended(w, s, Apply(w, s).worker.report)
  {
    hide SpecAccepted, Without;
    forall latest: Item ensures Says(w, s, latest, CommittedStatus(latest, Apply(w, s).worker.report)) {
    }
  }

  /** A pass about to report was ended by its latest step. */
  lemma {:induction false} EndedBy(ws: seq<World>, steps: seq<Step>, n: nat) returns (m: nat)
    requires IsRun(ws, steps) && n < |ws| && ws[0].worker.Idle? && ws[n].worker.Reporting?
    ensures m < n && !ByUser(steps[m]) && (forall j :: m < j < n ==> ByUser(steps[j]))
    ensures Ended(ws[m], steps[m], ws[n].worker.report)
    decreases n
  {
    hide Apply, Enabled, Ended;
    if ByUser(steps[n - 1]) {
      WorkerAfter(ws[n - 1], steps[n - 1]);
      m := EndedBy(ws, steps, n - 1);
    } else {
      m := n - 1;
      BeginEnds(ws[m], steps[m]);
    }
  }

  /**
   In any run, whatever users do meanwhile, the status a pass commits says how the pass ended: it was ended by the
   worker's latest step, Synced=True means that step delivered the Secret whose target and hash are recorded, and
   any other ending records the stored spec's target and keeps the hash.
   */
  lemma StatusSays(ws: seq<World>, steps: seq<Step>, c: nat) returns (m: nat)
    requires IsRun(ws, steps) && c < |steps| && ws[0].worker.Idle? && steps[c] == Commit(true)
    ensures m < c && !ByUser(steps[m]) && (forall j :: m < j < c ==> ByUser(steps[j]))
    ensures ws[c].item.Some? && ws[c + 1].item.Some?
    ensures Says(ws[m], steps[m], ws[c].item.value, ws[c + 1].item.value.status)
    ensures ws[c + 1].item.value == ws[c].item.value.(status := ws[c + 1].item.value.status) && ws[c + 1].workload == ws[c].workload
  {
    hide CommittedStatus, Says;
    WorkerIs(ws[c], steps[c]);
    CommitIs(ws[c]);
    hide Apply, Enabled;
    m := EndedBy(ws, steps, c);
  }

  lemma CommitIs(w: World)
    requires Enabled(w, Commit(true))
    ensures w.item.Some? && w.worker.Reporting?
    ensures Apply(w, Commit(true)).workload == w.workload
    ensures Apply(w, Commit(true)).item == Some(w.item.value.(status := CommittedStatus(w.item.value, w.worker.report)))
  {
    hide CommittedStatus;
  }

  predicate SaysSynced(s: Status) {
    CONDITION_SYNCED in s.conditions && s.conditions[CONDITION_SYNCED].holds
  }

  lemma StatusKept(w: World, s: Step)
    requires Enabled(w, s) && s != Commit(true) && Apply(w, s).item.Some?
    ensures w.item.Some? && Apply(w, s).item.value.status == w.item.value.status
  {
    hide SpecAccepted, DesiredSecret, CommittedStatus, Without;
  }

  /**
   Synced=True is earned: in every reachable state that says so, an earlier step delivered to the recorded target a
   faithful copy whose type and data have the recorded hash, and nothing has been reported since.
   */
  lemma {:induction false} SyncedIsEarned(ws: seq<World>, steps: seq<Step>, n: nat) returns (i: nat, c: nat)
    requires IsRun(ws, steps) && n < |ws| && ws[0].worker.Idle? && ws[n].item.Some?
    requires ws[0].item.Some? ==> !SaysSynced(ws[0].item.value.status)
    requires SaysSynced(ws[n].item.value.status)
    ensures i < c < n && steps[i] == SyncTarget(Done) && ws[i].worker.Syncing?
    ensures steps[c] == Commit(true) && (forall j :: i < j < c ==> ByUser(steps[j])) && (forall j :: c < j < n ==> steps[j] != Commit(true))
    ensures
      var status, p := ws[n].item.value.status, ws[i].worker;
      && status.target == p.item.spec.target && status.target in ws[i + 1].workload
      && Copies(ws[i + 1].workload[status.target], p.item, p.source, p.clusterName)
      && status.hash == Some(Sha256(SecretContent(ws[i + 1].workload[status.target].kind, ws[i + 1].workload[status.target].data)))
    decreases n
  {
    hide Apply, Enabled, Copies;
    if steps[n - 1] == Commit(true) {
      c := n - 1;
      i := StatusSays(ws, steps, c);
      SyncDelivers(ws[i]);
    } else {
      StatusKept(ws[n - 1], steps[n - 1]);
      i, c := SyncedIsEarned(ws, steps, n - 1);
    }
  }

  lemma SyncDelivers(w: World)
    requires Enabled(w, SyncTarget(Done))
    ensures w.worker.Syncing?
    ensures
      var p, v := w.worker, Apply(w, SyncTarget(Done));
      && p.item.spec.target in v.workload && Copies(v.workload[p.item.spec.target], p.item, p.source, p.clusterName)
      && v.workload[p.item.spec.target].kind == (if p.item.spec.kind != "" then p.item.spec.kind else p.source.kind)
      && v.workload[p.item.spec.target].data == p.source.data
  {
    DesiredCopies(w.worker.item, w.worker.source, w.worker.clusterName);
    hide DesiredSecret, KeepsEntries;
  }
}
