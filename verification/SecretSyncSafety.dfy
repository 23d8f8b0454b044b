/** Secret sync leaves nothing behind, exactly as long as no report forgets a target. */
module SecretSyncSafety {
  import opened Kube
  import opened TrimmedText
  import opened SecretSync
  import opened SecretSyncModel

  /** The workload Secrets that carry this item's owner label. */
  function OwnedTargets(w: World): set<Key> {
    set t | t in w.workload && Owned(w.uid, w.workload[t])
  }

  function Recorded(item: Item): set<Key> {
    if RecordedSet(item) then {item.status.target} else {}
  }

  /** Where, by the phase the worker is in, an owned Secret may still be. */
  function Cover(w: World): set<Key>
    requires w.item.Some?
  {
    match w.worker
    case Syncing(item, _, _) => {item.spec.target}
    case Reporting(Success(t, _, _)) => {t}
    case Reporting(Trouble(AfterCleanup(t), _, _, _)) => {t}
    case Releasing => {}
    case _ => Recorded(w.item.value)
  }

  /** The item a pass read differs from the stored one at most in spec and deletion mark. */
  predicate Current(w: World, item: Item)
    requires w.item.Some?
  {
    && item.uid == w.uid
    && item.status == w.item.value.status
    && item.spec.deletionPolicy == POLICY_DELETE
    && SpecAccepted(item.spec)
  }

  predicate Named(t: Key) {
    t.name != "" && t.namespace != ""
  }

  predicate ItemSound(w: World, item: Item) {
    && item.uid == w.uid
    && SpecAccepted(item.spec)
    && item.spec.deletionPolicy == POLICY_DELETE
    && (!item.finalizer ==> !item.deleting && OwnedTargets(w) == {})
  }

  predicate WorkerSound(w: World)
    requires w.item.Some?
  {
    match w.worker
    case Idle => true
    case Reporting(report) => w.item.value.finalizer && (report.Success? ==> Named(report.target))
    case Releasing => w.item.value.finalizer && w.item.value.deleting
    case Removing(item) => w.item.value.finalizer && w.item.value.deleting && Current(w, item)
    case Checking(item) => w.item.value.finalizer && Current(w, item)
    case Cleaning(item, _, _) => w.item.value.finalizer && Current(w, item)
    case Syncing(item, _, _) => w.item.value.finalizer && Current(w, item)
  }

  /** Every owned Secret is where the item, or the pass in progress, still remembers it. */
  predicate Inv(w: World) {
    && w.uid != ""
    && if w.item.None? then w.worker.Idle? && OwnedTargets(w) == {}
       else ItemSound(w, w.item.value) && WorkerSound(w) && OwnedTargets(w) <= Cover(w)
  }

  /**
   The guard, readable before the step: edits stay under the Delete policy, and the status commit
   does not replace the target of a Secret that is owned.
   */
  predicate Remembers(w: World, s: Step)
    requires Enabled(w, s)
  {
    match s
    case EditSpec(spec) => spec.deletionPolicy == POLICY_DELETE
    case Commit(ok) =>
      w.item.Some? &&
      var item := w.item.value;
      OwnedTargets(w) == {} ||
      (match w.worker.report
       case Success(t, _, _) => ok || Recorded(item) == {t}
       case Trouble(AfterCleanup(t), _, _, _) => if ok then item.spec.target == t else Recorded(item) == {t}
       case Trouble(BeforeCleanup, _, _, _) => ok && RecordedSet(item) ==> item.spec.target == item.status.target)
    case _ => true
  }

  lemma TargetNamed(spec: Spec)
    requires SpecAccepted(spec)
    ensures Named(spec.target)
  {
  }

  lemma OwnedAfterWithout(w: World, item: Item, t: Key)
    requires item.uid == w.uid != ""
    ensures OwnedTargets(w.(workload := Without(item, w.workload, t))) == OwnedTargets(w) - {t}
  {
  }

  lemma OwnedAfterSync(w: World, item: Item, clusterName: string, source: Secret)
    requires item.uid == w.uid != ""
    ensures OwnedTargets(w.(workload := w.workload[item.spec.target := DesiredSecret(item, source, clusterName)]))
              == OwnedTargets(w) + {item.spec.target}
  {
    DesiredIsOwned(item, source, clusterName);
    hide DesiredSecret;
  }

  lemma SameOwned(w: World, v: World)
    requires w.uid == v.uid && w.workload == v.workload
    ensures OwnedTargets(w) == OwnedTargets(v)
  {
  }

  lemma InvEnvironment(w: World, s: Step)
    requires Inv(w) && Enabled(w, s) && Remembers(w, s) && (s.EditSpec? || s.MarkDeleted? || s.EditWorkload?)
    ensures Inv(Apply(w, s))
  {
    hide SpecAccepted;
    assert OwnedTargets(Apply(w, s)) <= OwnedTargets(w);
  }

  lemma InvCleanup(w: World, e: Effect)
    requires Inv(w) && w.worker.Cleaning?
    ensures Inv(Apply(w, Cleanup(e)))
  {
    hide SpecAccepted, Without;
    var item := w.worker.item;
    OwnedAfterWithout(w, item, item.status.target);
    SameOwned(Apply(w, Cleanup(e)), w.(workload := Apply(w, Cleanup(e)).workload));
  }

  lemma InvSync(w: World, e: Effect)
    requires Inv(w) && Enabled(w, SyncTarget(e))
    ensures Inv(Apply(w, SyncTarget(e)))
  {
    hide SpecAccepted, DesiredSecret;
    var item := w.worker.item;
    TargetNamed(item.spec);
    OwnedAfterSync(w, item, w.worker.clusterName, w.worker.source);
    SameOwned(Apply(w, SyncTarget(e)), w.(workload := Apply(w, SyncTarget(e)).workload));
  }

  lemma InvRemove(w: World, readable: bool, reason: string, e: Effect)
    requires Inv(w) && w.worker.Removing? && Enabled(w, Remove(readable, reason, e))
    ensures Inv(Apply(w, Remove(readable, reason, e)))
  {
    hide SpecAccepted, Without;
    var item := w.worker.item;
    OwnedAfterWithout(w, item, DeletionTarget(item));
    var v := Apply(w, Remove(readable, reason, e));
    SameOwned(v, w.(workload := v.workload));
  }

  lemma InvCommit(w: World, ok: bool)
    requires Inv(w) && Enabled(w, Commit(ok)) && Remembers(w, Commit(ok))
    ensures Inv(Apply(w, Commit(ok)))
  {
    hide SpecAccepted;
    TargetNamed(w.item.value.spec);
    SameOwned(w, Apply(w, Commit(ok)));
  }

  /** Every remembering step keeps the invariant. */
  lemma InvStep(w: World, s: Step)
    requires Inv(w) && Enabled(w, s) && Remembers(w, s)
    ensures Inv(Apply(w, s))
  {
    hide SpecAccepted, Cleaned, SyncedTo, Removed, Committed, Without, CommittedStatus;
    match s
    case EditSpec(_) => InvEnvironment(w, s);
    case MarkDeleted => InvEnvironment(w, s);
    case EditWorkload(_, _) => InvEnvironment(w, s);
    case Cleanup(e) => InvCleanup(w, e);
    case SyncTarget(e) => InvSync(w, e);
    case Commit(ok) => InvCommit(w, ok);
    case Remove(readable, reason, e) => InvRemove(w, readable, reason, e);
    case _ => SameOwned(w, Apply(w, s));
  }

  ghost predicate RemembersAll(ws: seq<World>, steps: seq<Step>) {
    IsRun(ws, steps) && forall i :: 0 <= i < |steps| ==> Enabled(ws[i], steps[i]) && Remembers(ws[i], steps[i])
  }

  lemma {:induction false} InvAlways(ws: seq<World>, steps: seq<Step>, n: nat)
    requires RemembersAll(ws, steps) && n < |ws| && Init(ws[0])
    ensures Inv(ws[n])
    decreases n
  {
    hide Apply, Enabled, Remembers, Inv;
    if n == 0 {
      InitInv(ws[0]);
    } else {
      InvAlways(ws, steps, n - 1);
      InvStep(ws[n - 1], steps[n - 1]);
    }
  }

  lemma InitInv(w: World)
    requires Init(w)
    ensures Inv(w)
  {
    hide SpecAccepted;
  }

  /**
   Secret sync leaves nothing behind.  On every run of remembering steps, whatever user edits and
   deletion marks interleave and whichever foreign calls fail with or without effect: at most one
   owned Secret exists at any time; between passes it is the recorded target (and none is owned
   while nothing is recorded); and once the item has vanished, none is left.
   */
  lemma LeavesNothingBehind(ws: seq<World>, steps: seq<Step>, n: nat)
    requires RemembersAll(ws, steps) && n < |ws| && Init(ws[0])
    ensures |OwnedTargets(ws[n])| <= 1
    ensures ws[n].item.None? ==> OwnedTargets(ws[n]) == {}
    ensures ws[n].item.Some? && ws[n].worker.Idle? ==>
              OwnedTargets(ws[n]) <= {DeletionTarget(ws[n].item.value)}
              && (!RecordedSet(ws[n].item.value) ==> OwnedTargets(ws[n]) == {})
  {
    hide RemembersAll, Init, Inv, OwnedTargets;
    InvAlways(ws, steps, n);
    InvMeans(ws[n]);
  }

  lemma InvMeans(w: World)
    requires Inv(w)
    ensures |OwnedTargets(w)| <= 1
    ensures w.item.None? ==> OwnedTargets(w) == {}
    ensures w.item.Some? && w.worker.Idle? ==>
              OwnedTargets(w) <= {DeletionTarget(w.item.value)}
              && (!RecordedSet(w.item.value) ==> OwnedTargets(w) == {})
  {
    hide ItemSound, WorkerSound, OwnedTargets;
    if w.item.Some? {
      AtMostOne(OwnedTargets(w), Cover(w));
    }
  }

  lemma AtMostOne(s: set<Key>, cover: set<Key>)
    requires s <= cover && |cover| <= 1
    ensures |s| <= 1
  {
    if s != {} {
      var x :| x in s;
      assert cover - {x} == {} by { assert |cover - {x}| == |cover| - 1; }
      assert s == {x};
    }
  }

  /** The guard is exact: a commit keeps the invariant if and only if it remembers. */
  lemma GuardIsExact(w: World, ok: bool)
    requires Inv(w) && Enabled(w, Commit(ok))
    ensures Inv(Apply(w, Commit(ok))) <==> Remembers(w, Commit(ok))
  {
    hide SpecAccepted;
    TargetNamed(w.item.value.spec);
    SameOwned(w, Apply(w, Commit(ok)));
    if Remembers(w, Commit(ok)) {
      InvCommit(w, ok);
    }
  }

  // ---------------------------------------------------------------- the guard is needed

  function NewItem(key: Key, uid: string, spec: Spec): Item {
    Item(key, uid, 1, false, false, spec, Status(0, Key("", ""), None, map[]))
  }

  /** The item once it has synced for the first time. */
  function SyncedItem(key: Key, uid: string, spec: Spec, clusterName: string, source: Secret): Item {
    var item := NewItem(key, uid, spec).(finalizer := true);
    var desired := DesiredSecret(item, source, clusterName);
    item.(status := CommittedStatus(item, Success(spec.target, desired.kind, Hash(desired.kind, desired.data))))
  }

  function SyncedWorld(key: Key, uid: string, spec: Spec, clusterName: string, source: Secret): World {
    var item := NewItem(key, uid, spec).(finalizer := true);
    World(uid, Some(SyncedItem(key, uid, spec, clusterName, source)),
          map[spec.target := DesiredSecret(item, source, clusterName)], Idle)
  }

  lemma CleaningRun(ws0: seq<World>, steps0: seq<Step>, clusterName: string, source: Secret)
    returns (ws: seq<World>, steps: seq<Step>)
    requires IsRun(ws0, steps0)
    requires var w := ws0[|steps0|];
             w.item.Some? && w.worker.Idle? && w.item.value.finalizer && !w.item.value.deleting && SpecAccepted(w.item.value.spec)
    ensures IsRun(ws, steps) && ws0 <= ws
    ensures ws[|steps|] == ws0[|steps0|].(worker := Cleaning(ws0[|steps0|].item.value, clusterName, source))
  {
    hide SpecAccepted;
    var w, item := ws0[|steps0|], ws0[|steps0|].item.value;
    ws, steps := Extend(ws0, steps0, Begin(true), w.(worker := Checking(item)));
    ws, steps := Extend(ws, steps, Check(Ready(clusterName, source)), w.(worker := Cleaning(item, clusterName, source)));
  }

  /** A first sync, from an initial world. */
  lemma SyncRun(key: Key, uid: string, spec: Spec, clusterName: string, source: Secret) returns (ws: seq<World>, steps: seq<Step>)
    requires uid != "" && SpecAccepted(spec)
    ensures IsRun(ws, steps) && ws[0] == World(uid, Some(NewItem(key, uid, spec)), map[], Idle)
    ensures ws[|steps|] == SyncedWorld(key, uid, spec, clusterName, source)
  {
    hide SpecAccepted, DesiredSecret, CommittedStatus;
    var w0 := World(uid, Some(NewItem(key, uid, spec)), map[], Idle);
    var item := NewItem(key, uid, spec).(finalizer := true);
    var w1 := w0.(item := Some(item));
    ws, steps := Extend([w0], [], Begin(true), w1);
    ws, steps := CleaningRun(ws, steps, clusterName, source);
    ws, steps := Extend(ws, steps, Cleanup(Done), w1.(worker := Syncing(item, clusterName, source)));
    var desired := DesiredSecret(item, source, clusterName);
    var r := Success(spec.target, desired.kind, Hash(desired.kind, desired.data));
    ws, steps := Extend(ws, steps, SyncTarget(Done), w1.(workload := map[spec.target := desired], worker := Reporting(r)));
    ws, steps := Extend(ws, steps, Commit(true), SyncedWorld(key, uid, spec, clusterName, source));
  }

  /** The world after a retarget whose cleanup fails and is reported: the new target is recorded. */
  function ForgetfulItem(key: Key, uid: string, spec: Spec, after: Spec, clusterName: string, source: Secret): Item {
    var item := SyncedItem(key, uid, spec, clusterName, source).(spec := after, generation := 2);
    item.(status := CommittedStatus(item, Trouble(BeforeCleanup, true, true, REASON_DELETE_FAILED)))
  }

  lemma SyncedRecords(key: Key, uid: string, spec: Spec, after: Spec, clusterName: string, source: Secret)
    requires SpecAccepted(spec) && SpecAccepted(after) && after.deletionPolicy == POLICY_DELETE && after.target != spec.target
    ensures
      var item := SyncedItem(key, uid, spec, clusterName, source).(spec := after, generation := 2);
      item.status.target == spec.target && item.finalizer && !item.deleting && CleanupNeeded(item) && item.uid == uid
    ensures
      var item := ForgetfulItem(key, uid, spec, after, clusterName, source);
      DeletionTarget(item) == after.target && item.finalizer && !item.deleting && item.spec == after
  {
    TargetNamed(spec);
    TargetNamed(after);
    hide SpecAccepted, DesiredSecret, AcceptedCondition;
  }

  lemma FailRun(key: Key, uid: string, spec: Spec, after: Spec, clusterName: string, source: Secret) returns (ws: seq<World>, steps: seq<Step>)
    requires uid != "" && SpecAccepted(spec) && Admitted(spec, after) && after.deletionPolicy == POLICY_DELETE && after.target != spec.target
    ensures IsRun(ws, steps) && ws[0] == World(uid, Some(NewItem(key, uid, spec)), map[], Idle)
    ensures ws[|steps|] == SyncedWorld(key, uid, spec, clusterName, source)
                             .(item := Some(ForgetfulItem(key, uid, spec, after, clusterName, source)))
  {
    SyncedRecords(key, uid, spec, after, clusterName, source);
    hide SpecAccepted, DesiredSecret, CommittedStatus, CleanupNeeded, SyncedItem;
    ws, steps := SyncRun(key, uid, spec, clusterName, source);
    var item := SyncedItem(key, uid, spec, clusterName, source).(spec := after, generation := 2);
    var w := ws[|steps|].(item := Some(item));
    RetargetStep(ws[|steps|], after);
    SyncedGeneration(key, uid, spec, clusterName, source);
    hide Apply, Enabled;
    ws, steps := Extend(ws, steps, EditSpec(after), w);
    ws, steps := FailedCleanupRun(ws, steps, clusterName, source);
  }

  lemma SyncedGeneration(key: Key, uid: string, spec: Spec, clusterName: string, source: Secret)
    ensures SyncedItem(key, uid, spec, clusterName, source).generation == 1 && SyncedItem(key, uid, spec, clusterName, source).spec == spec
  {
    hide DesiredSecret, CommittedStatus;
  }

  lemma RetargetStep(w: World, after: Spec)
    requires w.item.Some? && Admitted(w.item.value.spec, after)
    ensures Enabled(w, EditSpec(after))
    ensures Apply(w, EditSpec(after)) == w.(item := Some(w.item.value.(spec := after, generation := w.item.value.generation + 1)))
  {
    hide SpecAccepted;
  }

  /** A pass whose cleanup is refused and reported. */
  lemma FailedCleanupRun(ws0: seq<World>, steps0: seq<Step>, clusterName: string, source: Secret)
    returns (ws: seq<World>, steps: seq<Step>)
    requires IsRun(ws0, steps0)
    requires var w := ws0[|steps0|];
             w.item.Some? && w.worker.Idle? && w.item.value.finalizer && !w.item.value.deleting && SpecAccepted(w.item.value.spec)
             && CleanupNeeded(w.item.value)
    ensures IsRun(ws, steps) && ws0 <= ws
    ensures
      var w, r := ws0[|steps0|], Trouble(BeforeCleanup, true, true, REASON_DELETE_FAILED);
      ws[|steps|] == w.(item := Some(w.item.value.(status := CommittedStatus(w.item.value, r))))
  {
    hide SpecAccepted, CommittedStatus, CleanupNeeded;
    var w, r := ws0[|steps0|], Trouble(BeforeCleanup, true, true, REASON_DELETE_FAILED);
    ws, steps := CleaningRun(ws0, steps0, clusterName, source);
    ws, steps := Extend(ws, steps, Cleanup(Refused), w.(worker := Reporting(r)));
    ws, steps := Extend(ws, steps, Commit(true), w.(item := Some(w.item.value.(status := CommittedStatus(w.item.value, r)))));
  }

  /**
   For every two admitted Delete-policy specs that differ in their target: a run from an initial world in
   which cleanup after a retarget fails, the DeleteFailed report forgets the old target, and the deletion
   of the item leaves its Secret behind.
   */
  lemma DeleteFailedForgets(key: Key, uid: string, spec: Spec, after: Spec, clusterName: string, source: Secret)
    returns (ws: seq<World>, steps: seq<Step>)
    requires uid != "" && SpecAccepted(spec) && spec.deletionPolicy == POLICY_DELETE
    requires Admitted(spec, after) && after.deletionPolicy == POLICY_DELETE && after.target != spec.target
    ensures IsRun(ws, steps) && Init(ws[0])
    ensures ws[|steps|].item.None? && OwnedTargets(ws[|steps|]) == {spec.target}
  {
    SyncedRecords(key, uid, spec, after, clusterName, source);
    DesiredIsOwned(NewItem(key, uid, spec).(finalizer := true), source, clusterName);
    hide SpecAccepted, DesiredSecret, CommittedStatus, DeletionTarget, ForgetfulItem, SyncedItem;
    ws, steps := FailRun(key, uid, spec, after, clusterName, source);
    hide Apply, Enabled;
    ws, steps := DeletionRun(ws, steps);
    assert OwnedTargets(ws[|steps|]) == {spec.target};
  }

  /** Deletion of an item whose recorded target does not exist. */
  lemma DeletionRun(ws0: seq<World>, steps0: seq<Step>) returns (ws: seq<World>, steps: seq<Step>)
    requires IsRun(ws0, steps0)
    requires var w := ws0[|steps0|];
             w.item.Some? && w.worker.Idle? && w.item.value.finalizer && w.item.value.spec.deletionPolicy == POLICY_DELETE
             && DeletionTarget(w.item.value) !in w.workload
    ensures IsRun(ws, steps) && ws0 <= ws && ws[|steps|] == ws0[|steps0|].(item := None)
  {
    hide SpecAccepted, DeletionTarget;
    var w := ws0[|steps0|];
    var item := w.item.value.(deleting := true);
    SameDeletionTarget(w.item.value);
    ws, steps := Extend(ws0, steps0, MarkDeleted, w.(item := Some(item)));
    ws, steps := Extend(ws, steps, Begin(true), w.(item := Some(item), worker := Removing(item)));
    ws, steps := Extend(ws, steps, Remove(true, "", Done), w.(item := Some(item), worker := Releasing));
    ws, steps := Extend(ws, steps, Release(true), w.(item := None));
  }

  lemma SameDeletionTarget(item: Item)
    ensures DeletionTarget(item.(deleting := true)) == DeletionTarget(item)
  {
  }

  /** There are accepted specs. */
  lemma SomeSpecAccepted(t: string)
    requires t in {"first", "second"}
    ensures SpecAccepted(Spec("c", "kube", "", "src", Key("app", t), "", map[], map[], false, POLICY_DELETE))
  {
    forall t | t in {"c", "kube", "src", "first", "second", "app"} ensures !Blank(t) {
      BlankMeansOnlySpace(t);
      assert !IsSpace(t[0]);
    }
  }
}
