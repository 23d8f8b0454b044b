/**
 What a kubeconfig export leaves behind.  Under the Delete policy the Secret that carries an export's
 label goes with it, exactly as long as the place where it sits stays the one the export looks up.
 */
module ExportCleanup {
  import opened Kube
  import opened KubeconfigExport
  import opened ExportModel
  import opened ExportSteps
  import opened ExportRuns
  import opened ExportWitness

  /** The Secrets that carry this export's owner label. */
  function Owned(w: World, uid: string): set<Key> {
    set x | x in w.secrets && Label(w.secrets[x], OWNER_UID_LABEL) == uid
  }

  predicate Alive(w: World, k: Key, uid: string) {
    k in w.exports && w.exports[k].uid == uid
  }

  /** The policy asks for deletion and there is a name to delete. */
  predicate Deletes(spec: Spec) {
    spec.deletionPolicy == POLICY_DELETE && spec.targetName != ""
  }

  /** A worker that is busy works on the export that is stored, which its finalizer keeps there. */
  predicate WorkerSound(w: World, k: Key) {
    var p := WorkerOf(w, k);
    p.Idle? ||
    (&& k in w.exports && w.exports[k].finalizer
     && (Snapshot(p).Some? ==>
           var x, item := Snapshot(p).value, w.exports[k];
           x.uid == item.uid && x.key == item.key && x.status == item.status
           && (p.Removing? || p.Releasing? ==> item.deleting)))
  }

  /** Nobody but the export at k has this uid. */
  predicate Unique(w: World, k: Key, uid: string) {
    && (forall j :: j in w.exports && w.exports[j].uid == uid ==> j == k)
    && (forall j :: j in w.workers && Snapshot(w.workers[j]).Some? && Snapshot(w.workers[j]).value.uid == uid ==> j == k)
  }

  predicate ItemSound(w: World, k: Key, item: Export, uid: string) {
    && item.key == k && k.namespace != "" && Deletes(item.spec)
    && (item.status.targetName != "" ==> item.status.targetNamespace != "")
    && (!item.finalizer ==> !item.deleting && Owned(w, uid) == {})
  }

  /** Unless a report is pending, every Secret with the label is where the export, and its pass, look it up. */
  predicate Covered(w: World, k: Key, uid: string)
    requires k in w.exports
  {
    match WorkerOf(w, k)
    case Reporting(_) => true
    case Releasing(_) => Owned(w, uid) == {}
    case p =>
      && Owned(w, uid) <= {LookupKey(w.exports[k])}
      && (Snapshot(p).Some? ==> Deletes(Snapshot(p).value.spec) && Owned(w, uid) <= {LookupKey(Snapshot(p).value)})
  }

  predicate Inv(w: World, k: Key, uid: string) {
    && uid != "" && WorkerSound(w, k) && Unique(w, k, uid)
    && if Alive(w, k, uid) then ItemSound(w, k, w.exports[k], uid) && Covered(w, k, uid) else Owned(w, uid) == {}
  }

  /**
   The guard, readable before the step: uids are not reused, specs stay under the Delete policy with a
   target, and neither an edit, nor a report, nor a write whose reply is lost moves the place the export
   looks up away from a Secret that carries its label.
   */
  predicate Remembers(w: World, s: Step, k: Key, uid: string)
    requires Enabled(w, s)
  {
    match s
    case Create(j, u, spec) => u == uid ==> j == k && Deletes(spec)
    case EditSpec(j, spec) =>
      j == k && Alive(w, k, uid) ==>
        && Deletes(spec)
        && (WorkerOf(w, k).Reporting? || Owned(w, uid) <= {LookupKey(w.exports[k].(spec := spec))})
    case Commit(j, ok) =>
      j == k && Alive(w, k, uid) ==>
        Owned(w, uid) <= {if ok then SpecTarget(w.exports[k]) else LookupKey(w.exports[k])}
    case WriteSecret(j, e) =>
      j == k && Alive(w, k, uid) && e.Lost? ==> WriteKey(w.workers[k].pass, w.workers[k].base) == LookupKey(w.exports[k])
    case _ => true
  }

  // ---------------------------------------------------------------- the label

  lemma RewriteLabels(base: Secret, item: Export, clusterName: string, kubeconfig: Bytes, now: Nanos)
    ensures Label(Rewrite(base, item, clusterName, kubeconfig, now), OWNER_UID_LABEL) == item.uid
  {
  }

  /** A Secret with the label had it before, or was just rewritten by an export with that uid. */
  lemma OwnedAfter(w: World, s: Step, uid: string, x: Key)
    requires Enabled(w, s) && uid != "" && x in Owned(Apply(w, s), uid)
    ensures x in Owned(w, uid) || (Rewrites(w, s, x) && Author(w, s, x).item.uid == uid)
  {
    SecretAfter(w, s, x);
    hide Apply, Enabled, Rewrite;
    if Rewrites(w, s, x) {
      var p := w.workers[s.k];
      RewriteLabels(Before(w, x), p.pass.item, p.pass.clusterName, p.kubeconfig, p.pass.now);
    }
  }

  /** So only the export's own writes can add to them. */
  lemma OwnedShrinks(w: World, s: Step, k: Key, uid: string)
    requires Enabled(w, s) && uid != "" && Unique(w, k, uid)
    requires !(s.WriteSecret? && s.k == k && !s.effect.Refused? && Alive(w, k, uid))
    requires WorkerSound(w, k)
    ensures Owned(Apply(w, s), uid) <= Owned(w, uid)
  {
    hide Apply, Enabled;
    forall x | x in Owned(Apply(w, s), uid) ensures x in Owned(w, uid) {
      OwnedAfter(w, s, uid, x);
      if Rewrites(w, s, x) {
        assert Snapshot(w.workers[s.k]) == Some(Author(w, s, x).item);
      }
    }
  }

  // ---------------------------------------------------------------- identity

  lemma UniqueAfter(w: World, s: Step, k: Key, uid: string)
    requires Enabled(w, s) && Unique(w, k, uid) && (s.Create? && s.uid == uid ==> s.k == k)
    ensures Unique(Apply(w, s), k, uid)
  {
    hide Apply, Enabled;
    var v := Apply(w, s);
    forall j | j in v.exports && v.exports[j].uid == uid ensures j == k {
      ExportAfter(w, s, j);
      if j !in w.exports {
        CreatedBy(w, s, j);
      }
    }
    forall j | j in v.workers && Snapshot(v.workers[j]).Some? && Snapshot(v.workers[j]).value.uid == uid ensures j == k {
      SnapshotAfter(w, s, j);
    }
  }

  lemma CreatedBy(w: World, s: Step, j: Key)
    requires Enabled(w, s) && j in Apply(w, s).exports && j !in w.exports
    ensures s.Create? && s.k == j && Apply(w, s).exports[j].uid == s.uid
  {
    hide Begun, Resolved, Cleaned, LookedUp, Generated, Written, Committed, Removed;
  }

  /** Steps of users and of other workers on other exports. */
  predicate Elsewhere(s: Step, k: Key) {
    Actor(s) != Some(k) && !((s.Create? || s.EditSpec? || s.MarkDeleted?) && s.k == k)
  }

  lemma ElsewhereKeeps(w: World, s: Step, k: Key)
    requires Enabled(w, s) && Elsewhere(s, k)
    ensures WorkerOf(Apply(w, s), k) == WorkerOf(w, k)
    ensures k in Apply(w, s).exports <==> k in w.exports
    ensures k in w.exports ==> Apply(w, s).exports[k] == w.exports[k]
  {
    hide Begun, Resolved, Cleaned, LookedUp, Generated, Written, Committed, Removed;
  }

  lemma InvElsewhere(w: World, s: Step, k: Key, uid: string)
    requires Enabled(w, s) && Inv(w, k, uid) && Remembers(w, s, k, uid) && Elsewhere(s, k)
    ensures Inv(Apply(w, s), k, uid)
  {
    hide Apply, Enabled, Unique, LookupKey, Owned;
    ElsewhereKeeps(w, s, k);
    OwnedShrinks(w, s, k, uid);
    UniqueAfter(w, s, k, uid);
  }

  lemma InvUser(w: World, s: Step, k: Key, uid: string)
    requires Enabled(w, s) && Inv(w, k, uid) && Remembers(w, s, k, uid) && (s.Create? || s.EditSpec? || s.MarkDeleted?) && s.k == k
    ensures Inv(Apply(w, s), k, uid)
  {
    hide Unique, LookupKey, Owned;
    OwnedShrinks(w, s, k, uid);
    UniqueAfter(w, s, k, uid);
    if k in w.exports {
      LookupIgnores(w.exports[k]);
    }
  }

  /** What beginning a pass can do to the export and its worker. */
  lemma BeginKinds(w: World, k: Key, ok: bool)
    requires Enabled(w, Begin(k, ok))
    ensures
      var v := Apply(w, Begin(k, ok));
      var p := WorkerOf(v, k);
      && WorkerOf(w, k).Idle? && (k in v.exports <==> k in w.exports)
      && (k in w.exports && !(w.exports[k].finalizer) ==> p.Idle?)
      && (k in w.exports ==> v.exports[k] == w.exports[k] || (!w.exports[k].deleting && v.exports[k] == w.exports[k].(finalizer := true)))
      && (p.Idle? || (k in w.exports && v.exports[k] == w.exports[k] &&
            (p.Reporting? || p == Resolving(w.exports[k]) || (p == Removing(w.exports[k]) && w.exports[k].deleting))))
  {
    assert WorkerOf(w, k).Idle?;
    StepBegin(w, k, ok);
    hide Apply, Enabled, SpecAccepted;
  }

  lemma InvBegin(w: World, k: Key, ok: bool, uid: string)
    requires Enabled(w, Begin(k, ok)) && Inv(w, k, uid)
    ensures Inv(Apply(w, Begin(k, ok)), k, uid)
  {
    hide Apply, Enabled, Unique, LookupKey, Owned, SpecAccepted;
    BeginKinds(w, k, ok);
    OwnedShrinks(w, Begin(k, ok), k, uid);
    UniqueAfter(w, Begin(k, ok), k, uid);
    if k in w.exports {
      LookupIgnores(w.exports[k]);
    }
  }

  /** Where an export looks depends on its spec and status alone. */
  lemma LookupIgnores(item: Export)
    ensures LookupKey(item.(finalizer := true)) == LookupKey(item) == LookupKey(item.(deleting := true))
    ensures forall spec, g :: LookupKey(item.(spec := spec, generation := g)) == LookupKey(item.(spec := spec))
  {
  }

  lemma InvCommit(w: World, k: Key, ok: bool, uid: string)
    requires Enabled(w, Commit(k, ok)) && Inv(w, k, uid) && Remembers(w, Commit(k, ok), k, uid)
    ensures Inv(Apply(w, Commit(k, ok)), k, uid)
  {
    OwnedShrinks(w, Commit(k, ok), k, uid);
    UniqueAfter(w, Commit(k, ok), k, uid);
    StepCommit(w, k, ok);
    if ok {
      CommitRecords(w.exports[k], w.workers[k].report);
    }
    hide Apply, Enabled, Unique, LookupKey, SpecTarget, Owned, CommittedStatus;
  }

  lemma CommitRecords(item: Export, r: Report)
    ensures
      var after := item.(status := CommittedStatus(item, r));
      && after.status.targetName == item.spec.targetName
      && (item.key.namespace != "" ==> after.status.targetNamespace != "")
      && (item.key.namespace != "" && item.spec.targetName != "" ==> LookupKey(after) == SpecTarget(item))
  {
    hide AcceptedCondition;
  }

  lemma InvWrite(w: World, k: Key, e: Effect, uid: string)
    requires Enabled(w, WriteSecret(k, e)) && Inv(w, k, uid) && Remembers(w, WriteSecret(k, e), k, uid)
    ensures Inv(Apply(w, WriteSecret(k, e)), k, uid)
  {
    var s := WriteSecret(k, e);
    UniqueAfter(w, s, k, uid);
    StepWrite(w, k, e);
    if !e.Refused? && Alive(w, k, uid) {
      var x := WriteKey(w.workers[k].pass, w.workers[k].base);
      forall y | y in Owned(Apply(w, s), uid) && y != x ensures y in Owned(w, uid) {
        OwnedAfter(w, s, uid, y);
      }
    } else {
      OwnedShrinks(w, s, k, uid);
    }
    hide Apply, Enabled, Unique, LookupKey, SpecTarget, Owned, Rewrite, RotationReport;
  }

  lemma InvRemove(w: World, k: Key, e: Effect, uid: string)
    requires Enabled(w, Remove(k, e)) && Inv(w, k, uid)
    ensures Inv(Apply(w, Remove(k, e)), k, uid)
  {
    var s := Remove(k, e);
    UniqueAfter(w, s, k, uid);
    OwnedShrinks(w, s, k, uid);
    StepRemove(w, k, e);
    hide Apply, Enabled, Unique, LookupKey, SpecTarget;
  }

  lemma InvOwn(w: World, s: Step, k: Key, uid: string)
    requires Enabled(w, s) && Inv(w, k, uid) && Remembers(w, s, k, uid) && Actor(s) == Some(k)
    requires !s.Begin? && !s.Commit? && !s.WriteSecret? && !s.Remove?
    ensures Inv(Apply(w, s), k, uid)
  {
    hide Unique, LookupKey, SpecTarget, Owned, CleanupDeletes, Reusable, CoherentReport, RotationReport;
    OwnedShrinks(w, s, k, uid);
    UniqueAfter(w, s, k, uid);
  }

  lemma InvStep(w: World, s: Step, k: Key, uid: string)
    requires Enabled(w, s) && Inv(w, k, uid) && Remembers(w, s, k, uid)
    ensures Inv(Apply(w, s), k, uid)
  {
    hide Inv, Apply;
    if Elsewhere(s, k) {
      InvElsewhere(w, s, k, uid);
    } else {
      match s
      case Begin(_, ok) => InvBegin(w, k, ok, uid);
      case Commit(_, ok) => InvCommit(w, k, ok, uid);
      case WriteSecret(_, e) => InvWrite(w, k, e, uid);
      case Remove(_, e) => InvRemove(w, k, e, uid);
      case Create(_, _, _) => InvUser(w, s, k, uid);
      case EditSpec(_, _) => InvUser(w, s, k, uid);
      case MarkDeleted(_) => InvUser(w, s, k, uid);
      case _ => InvOwn(w, s, k, uid);
    }
  }

  ghost predicate RemembersAll(ws: seq<World>, steps: seq<Step>, k: Key, uid: string) {
    IsRun(ws, steps) && forall i :: 0 <= i < |steps| ==> Enabled(ws[i], steps[i]) && Remembers(ws[i], steps[i], k, uid)
  }

  lemma {:induction false} InvAlways(ws: seq<World>, steps: seq<Step>, k: Key, uid: string, n: nat)
    requires RemembersAll(ws, steps, k, uid) && n < |ws| && Init(ws[0]) && uid != ""
    ensures Inv(ws[n], k, uid)
    decreases n
  {
    hide Apply, Enabled, Remembers;
    if n > 0 {
      InvAlways(ws, steps, k, uid, n - 1);
      hide Inv;
      InvStep(ws[n - 1], steps[n - 1], k, uid);
    }
  }

  /**
   An export leaves nothing behind: on every run of remembering steps, whatever else interleaves and
   whichever calls fail with or without effect, the only Secret that carries the label between passes is
   the one the export looks up, and once the export has vanished there is none.
   */
  lemma ExportLeavesNothingBehind(ws: seq<World>, steps: seq<Step>, k: Key, uid: string, n: nat)
    requires RemembersAll(ws, steps, k, uid) && n < |ws| && Init(ws[0]) && uid != ""
    ensures !Alive(ws[n], k, uid) ==> Owned(ws[n], uid) == {}
    ensures Alive(ws[n], k, uid) && WorkerOf(ws[n], k).Idle? ==> Owned(ws[n], uid) <= {LookupKey(ws[n].exports[k])}
  {
    hide Apply, Enabled, Remembers, RemembersAll;
    InvAlways(ws, steps, k, uid, n);
  }

  lemma EditGuardIsExact(w: World, k: Key, spec: Spec, uid: string)
    requires Enabled(w, EditSpec(k, spec)) && Inv(w, k, uid) && Inv(Apply(w, EditSpec(k, spec)), k, uid)
    ensures Remembers(w, EditSpec(k, spec), k, uid)
  {
    LookupIgnores(w.exports[k]);
    assert Owned(Apply(w, EditSpec(k, spec)), uid) == Owned(w, uid);
    hide Unique, LookupKey, Owned;
  }

  lemma ReportGuardIsExact(w: World, k: Key, ok: bool, uid: string)
    requires Enabled(w, Commit(k, ok)) && Inv(w, k, uid) && Inv(Apply(w, Commit(k, ok)), k, uid)
    ensures Remembers(w, Commit(k, ok), k, uid)
  {
    StepCommit(w, k, ok);
    SameOwned(w, k, ok, uid);
    if ok {
      CommitRecords(w.exports[k], w.workers[k].report);
    }
    hide Apply, Enabled, Unique, LookupKey, SpecTarget, Owned, CommittedStatus;
  }

  lemma WriteGuardIsExact(w: World, k: Key, e: Effect, uid: string)
    requires Enabled(w, WriteSecret(k, e)) && Inv(w, k, uid) && Inv(Apply(w, WriteSecret(k, e)), k, uid)
    ensures Remembers(w, WriteSecret(k, e), k, uid)
  {
    StepWrite(w, k, e);
    var p := w.workers[k];
    RewriteLabels(if p.base.Some? then p.base.value.secret else NEW_SECRET, p.pass.item, p.pass.clusterName, p.kubeconfig, p.pass.now);
    assert Snapshot(p) == Some(p.pass.item);
    hide Apply, Enabled, Unique, LookupKey, SpecTarget, Rewrite, RotationReport, WriteKey;
    if e.Lost? && Alive(w, k, uid) {
      assert WriteKey(p.pass, p.base) in Owned(Apply(w, WriteSecret(k, e)), uid);
    }
  }

  /** The guard is exact: an edit, a report or a write keeps the invariant if and only if it remembers. */
  lemma GuardIsExact(w: World, s: Step, k: Key, uid: string)
    requires Enabled(w, s) && Inv(w, k, uid) && (s.EditSpec? || s.Commit? || s.WriteSecret?)
    ensures Inv(Apply(w, s), k, uid) <==> Remembers(w, s, k, uid)
  {
    if Remembers(w, s, k, uid) {
      InvStep(w, s, k, uid);
    } else if Inv(Apply(w, s), k, uid) {
      hide Inv, Apply;
      match s
      case EditSpec(_, spec) => EditGuardIsExact(w, k, spec, uid);
      case Commit(_, ok) => ReportGuardIsExact(w, k, ok, uid);
      case WriteSecret(_, e) => WriteGuardIsExact(w, k, e, uid);
    }
  }

  lemma SameOwned(w: World, k: Key, ok: bool, uid: string)
    requires Enabled(w, Commit(k, ok))
    ensures Owned(Apply(w, Commit(k, ok)), uid) == Owned(w, uid)
  {
    StepCommit(w, k, ok);
    hide Apply, Enabled, CommittedStatus;
  }

  // ---------------------------------------------------------------- exports that are never retargeted

  /** Users keep the target, and the Delete policy. */
  predicate KeepsTarget(w: World, s: Step, k: Key, uid: string, t: Key)
    requires Enabled(w, s)
  {
    && (s.Create? && s.uid == uid ==> s.k == k && Deletes(s.spec) && TargetIn(k, s.spec) == t)
    && (s.EditSpec? && s.k == k && Alive(w, k, uid) ==> Deletes(s.spec) && TargetIn(k, s.spec) == t)
  }

  predicate AtTarget(item: Export, t: Key) {
    SpecTarget(item) == t && LookupKey(item) == t
  }

  predicate PassAtTarget(p: Worker, t: Key) {
    && (Snapshot(p).Some? ==> AtTarget(Snapshot(p).value, t))
    && (p.Generating? || p.Writing? ==> p.base.Some? ==> p.base.value.key == t)
  }

  /** The export, its pass and its Secret are all at the one target. */
  predicate Settled(w: World, k: Key, uid: string, t: Key) {
    && Inv(w, k, uid) && Owned(w, uid) <= {t}
    && (Alive(w, k, uid) ==> AtTarget(w.exports[k], t) && PassAtTarget(WorkerOf(w, k), t))
  }

  lemma SettledRemembers(w: World, s: Step, k: Key, uid: string, t: Key)
    requires Enabled(w, s) && Settled(w, k, uid, t) && KeepsTarget(w, s, k, uid, t)
    ensures Remembers(w, s, k, uid)
  {
    hide Inv, Apply, Owned;
    if s.WriteSecret? && s.k == k && Alive(w, k, uid) {
      assert Snapshot(w.workers[k]) == Some(w.workers[k].pass.item);
    }
    if s.EditSpec? && s.k == k && Alive(w, k, uid) {
      EditKeepsTarget(w, k, uid, s.spec, t);
    }
  }

  lemma EditKeepsTarget(w: World, k: Key, uid: string, spec: Spec, t: Key)
    requires Inv(w, k, uid) && Alive(w, k, uid) && AtTarget(w.exports[k], t) && TargetIn(k, spec) == t
    ensures AtTarget(w.exports[k].(spec := spec), t)
  {
  }

  lemma SettledOwned(w: World, s: Step, k: Key, uid: string, t: Key)
    requires Enabled(w, s) && Settled(w, k, uid, t)
    ensures Owned(Apply(w, s), uid) <= {t}
  {
    hide Apply, Enabled, Owned, LookupKey, SpecTarget;
    forall x | x in Owned(Apply(w, s), uid) ensures x == t {
      OwnedAfter(w, s, uid, x);
      if Rewrites(w, s, x) && Author(w, s, x).item.uid == uid {
        assert Snapshot(w.workers[s.k]) == Some(Author(w, s, x).item);
      }
    }
  }

  lemma CreatedAtTarget(k: Key, uid: string, spec: Spec, t: Key)
    requires TargetIn(k, spec) == t
    ensures AtTarget(Export(k, uid, 1, false, false, spec, EMPTY_STATUS), t)
  {
  }

  /** The stored export stays at the target. */
  lemma SettledExport(w: World, s: Step, k: Key, uid: string, t: Key)
    requires Enabled(w, s) && Settled(w, k, uid, t) && KeepsTarget(w, s, k, uid, t) && Alive(Apply(w, s), k, uid)
    ensures AtTarget(Apply(w, s).exports[k], t)
  {
    hide Inv, Owned, AtTarget;
    if Elsewhere(s, k) {
      ElsewhereKeeps(w, s, k);
      hide Apply, Enabled;
    } else if s.EditSpec? {
      EditKeepsTarget(w, k, uid, s.spec, t);
      TargetIgnores(w.exports[k].(spec := s.spec), t);
    } else if s.Create? {
      CreatedAtTarget(k, uid, s.spec, t);
    } else {
      OwnExport(w, s, k);
      hide Apply, Enabled;
      TargetIgnores(w.exports[k], t);
      if Apply(w, s).exports[k].status != w.exports[k].status {
        SettledCommit(w, k, uid, w.workers[k].report, t);
      }
    }
  }

  /** An own step or a deletion mark changes the finalizer, the mark or, by a commit, the status. */
  lemma OwnExport(w: World, s: Step, k: Key)
    requires Enabled(w, s) && !Elsewhere(s, k) && !s.EditSpec? && !s.Create? && k in Apply(w, s).exports
    ensures
      var x := Apply(w, s).exports[k];
      && k in w.exports
      && (x == w.exports[k] || x == w.exports[k].(finalizer := true) || x == w.exports[k].(deleting := true)
          || (s == Commit(k, true) && k in w.workers && w.workers[k].Reporting?
              && x == w.exports[k].(status := CommittedStatus(w.exports[k], w.workers[k].report))))
  {
    hide Resolved, Cleaned, LookedUp, Generated, Written, Removed, CommittedStatus, SpecAccepted;
  }

  lemma TargetIgnores(item: Export, t: Key)
    ensures AtTarget(item, t) == AtTarget(item.(finalizer := true), t) == AtTarget(item.(deleting := true), t)
    ensures forall g :: AtTarget(item.(generation := g), t) == AtTarget(item, t)
  {
  }

  lemma SettledCommit(w: World, k: Key, uid: string, r: Report, t: Key)
    requires Inv(w, k, uid) && Alive(w, k, uid) && AtTarget(w.exports[k], t)
    ensures AtTarget(w.exports[k].(status := CommittedStatus(w.exports[k], r)), t)
  {
    CommitRecords(w.exports[k], r);
    hide CommittedStatus;
  }

  /** And so does the pass. */
  lemma SettledPass(w: World, s: Step, k: Key, uid: string, t: Key)
    requires Enabled(w, s) && Settled(w, k, uid, t) && Alive(w, k, uid) && Alive(Apply(w, s), k, uid)
    ensures PassAtTarget(WorkerOf(Apply(w, s), k), t)
  {
    hide Inv, Owned, AtTarget;
    if Actor(s) != Some(k) {
      WorkerAfter(w, s, k);
      hide Apply, Enabled;
    } else {
      LookupAtTarget(w.exports[k], t);
      if Snapshot(WorkerOf(w, k)).Some? {
        LookupAtTarget(Snapshot(WorkerOf(w, k)).value, t);
      }
      hide SpecAccepted, Reusable, CleanupDeletes, FinalDeletes, CommittedStatus, CoherentReport, LookupKey, SpecTarget;
    }
  }

  lemma LookupAtTarget(item: Export, t: Key)
    requires AtTarget(item, t)
    ensures LookupKey(item) == t
  {
  }

  lemma SettledStep(w: World, s: Step, k: Key, uid: string, t: Key)
    requires Enabled(w, s) && Settled(w, k, uid, t) && KeepsTarget(w, s, k, uid, t)
    ensures Settled(Apply(w, s), k, uid, t)
  {
    hide Apply, Enabled, AtTarget, Owned, PassAtTarget, Remembers, KeepsTarget;
    SettledRemembers(w, s, k, uid, t);
    InvStep(w, s, k, uid);
    SettledOwned(w, s, k, uid, t);
    if Alive(Apply(w, s), k, uid) {
      SettledExport(w, s, k, uid, t);
      if Alive(w, k, uid) {
        SettledPass(w, s, k, uid, t);
      } else {
        ReincarnationIsIdle(w, s, k, uid);
        IdleAtTarget(t);
      }
    }
  }

  lemma IdleAtTarget(t: Key)
    ensures PassAtTarget(Idle, t)
  {
  }

  /** An export that was not there is created while its worker is idle. */
  lemma ReincarnationIsIdle(w: World, s: Step, k: Key, uid: string)
    requires Enabled(w, s) && WorkerSound(w, k) && !Alive(w, k, uid) && Alive(Apply(w, s), k, uid)
    ensures WorkerOf(Apply(w, s), k).Idle?
  {
    hide Apply, Enabled;
    ExportAfter(w, s, k);
    CreatedBy(w, s, k);
    WorkerAfter(w, s, k);
  }

  ghost predicate TargetKept(ws: seq<World>, steps: seq<Step>, k: Key, uid: string, t: Key) {
    IsRun(ws, steps) && forall i :: 0 <= i < |steps| ==> Enabled(ws[i], steps[i]) && KeepsTarget(ws[i], steps[i], k, uid, t)
  }

  /**
   An export whose target is never edited leaves nothing behind: whatever fails, whatever other exports
   and users do to the Secrets, no Secret carries its label once it has vanished.
   */
  lemma {:induction false} FixedTargetLeavesNothingBehind(ws: seq<World>, steps: seq<Step>, k: Key, uid: string, t: Key, n: nat)
    requires TargetKept(ws, steps, k, uid, t) && n < |ws| && Init(ws[0]) && uid != ""
    ensures Settled(ws[n], k, uid, t)
    ensures !Alive(ws[n], k, uid) ==> Owned(ws[n], uid) == {}
    decreases n
  {
    hide Apply, Enabled, KeepsTarget;
    if n > 0 {
      FixedTargetLeavesNothingBehind(ws, steps, k, uid, t, n - 1);
      hide Settled;
      SettledStep(ws[n - 1], steps[n - 1], k, uid, t);
      if !Alive(ws[n], k, uid) {
        SettledMeans(ws[n], k, uid, t);
      }
    }
  }

  lemma SettledMeans(w: World, k: Key, uid: string, t: Key)
    requires Settled(w, k, uid, t) && !Alive(w, k, uid)
    ensures Owned(w, uid) == {}
  {
  }

  // ---------------------------------------------------------------- a retarget can leave one behind

  /** After a retarget, a pass that finds its cluster missing reports that, and so records the new target. */
  function Forgetful(w: World, k: Key): World
    requires k in w.exports
  {
    var item, r := w.exports[k], Failure(None, None, false, true, REASON_MISSING_CLUSTER);
    Goto(w.(clusters := map[]), k, Idle).(exports := map[k := item.(status := CommittedStatus(item, r))])
  }

  lemma ForgetRun(ws0: seq<World>, steps0: seq<Step>, k: Key) returns (ws: seq<World>, steps: seq<Step>)
    requires IsRun(ws0, steps0) && Ready(ws0[|steps0|], k) && ws0[|steps0|].exports.Keys == {k}
    requires ws0[|steps0|].clusters.Keys == {Key(k.namespace, ws0[|steps0|].exports[k].spec.clusterRef)}
    ensures IsRun(ws, steps) && ws0 <= ws && ws[|steps|] == Forgetful(ws0[|steps0|], k)
  {
    hide Apply, Enabled, SpecAccepted, CommittedStatus;
    var w, ck := ws0[|steps0|], Key(k.namespace, ws0[|steps0|].exports[k].spec.clusterRef);
    var item := w.exports[k];
    var w1 := w.(clusters := map[]);
    ClusterGone(w, ck);
    ws, steps := Grow(ws0, steps0, SetCluster(ck, None), w1);
    StepBegin(w1, k, true);
    var w2 := Goto(w1, k, Resolving(item));
    ws, steps := Grow(ws, steps, Begin(k, true), w2);
    StepResolve(w2, k, true);
    var w3 := Goto(w2, k, Reporting(Failure(None, None, false, true, REASON_MISSING_CLUSTER)));
    ws, steps := Grow(ws, steps, Resolve(k, true), w3);
    StepCommit(w3, k, true);
    assert w3.workers[k := Idle] == w1.workers[k := Idle];
    assert w3.exports[k := item.(status := CommittedStatus(item, w3.workers[k].report))] == Forgetful(w, k).exports;
    ws, steps := Grow(ws, steps, Commit(k, true), Forgetful(w, k));
  }

  lemma ClusterGone(w: World, ck: Key)
    requires w.clusters.Keys == {ck}
    ensures Enabled(w, SetCluster(ck, None)) && Apply(w, SetCluster(ck, None)) == w.(clusters := map[])
  {
  }

  /** Deletion of an export whose recorded target does not exist. */
  lemma DeleteRun(ws0: seq<World>, steps0: seq<Step>, k: Key) returns (ws: seq<World>, steps: seq<Step>)
    requires IsRun(ws0, steps0)
    requires var w := ws0[|steps0|];
             k in w.exports && WorkerOf(w, k).Idle? && w.exports[k].finalizer && LookupKey(w.exports[k]) !in w.secrets
    ensures IsRun(ws, steps) && ws0 <= ws && k !in ws[|steps|].exports && ws[|steps|].secrets == ws0[|steps0|].secrets
  {
    hide Apply, Enabled;
    var w := ws0[|steps0|];
    var item := w.exports[k].(deleting := true);
    LookupIgnores(w.exports[k]);
    hide LookupKey;
    MarkStep(w, k);
    var w1 := w.(exports := w.exports[k := item]);
    ws, steps := Grow(ws0, steps0, MarkDeleted(k), w1);
    StepBegin(w1, k, true);
    var w2 := Goto(w1, k, Removing(item));
    ws, steps := Grow(ws, steps, Begin(k, true), w2);
    StepRemove(w2, k, Done);
    var w3 := Goto(w2, k, Releasing(item));
    ws, steps := Grow(ws, steps, Remove(k, Done), w3);
    StepRelease(w3, k, true);
    ws, steps := Grow(ws, steps, Release(k, true), Goto(w3, k, Idle).(exports := w3.exports - {k}));
  }

  lemma MarkStep(w: World, k: Key)
    requires k in w.exports && w.exports[k].finalizer
    ensures Enabled(w, MarkDeleted(k))
    ensures Apply(w, MarkDeleted(k)) == w.(exports := w.exports[k := w.exports[k].(deleting := true)])
  {
  }

  /**
   For every two accepted Delete-policy specs that differ in their target: a run from an initial world in
   which the export is retargeted, its next pass fails before cleanup and reports that, and its deletion
   then leaves the old Secret behind, labelled as its own.
   */
  lemma FailureForgetsTarget(k: Key, uid: string, spec: Spec, after: Spec, clusterName: string, now: Nanos, kubeconfig: Bytes)
    returns (ws: seq<World>, steps: seq<Step>)
    requires Named(k) && uid != "" && SpecAccepted(spec) && SpecAccepted(after) && after.clusterRef == spec.clusterRef
    requires spec.deletionPolicy == after.deletionPolicy == POLICY_DELETE && TargetIn(k, after) != TargetIn(k, spec)
    ensures IsRun(ws, steps) && Init(ws[0])
    ensures k !in ws[|steps|].exports && Owned(ws[|steps|], uid) == {TargetIn(k, spec)}
  {
    hide Apply, Enabled, SpecAccepted, CommittedStatus, Rewrite, RotationReport, Ready, Owned;
    ws, steps := RetargetRun(k, uid, spec, after, clusterName, now, map[], kubeconfig);
    RetargetedReady(k, uid, spec, after, clusterName, now, map[], kubeconfig);
    var w := ws[|steps|];
    ws, steps := ForgetRun(ws, steps, k);
    ForgetfulLooksElsewhere(k, uid, spec, after, clusterName, now, kubeconfig);
    ws, steps := DeleteRun(ws, steps, k);
    RetargetedOwns(k, uid, spec, after, clusterName, now, kubeconfig, ws[|steps|]);
  }

  lemma ForgetfulLooksElsewhere(k: Key, uid: string, spec: Spec, after: Spec, clusterName: string, now: Nanos, kubeconfig: Bytes)
    requires Named(k) && SpecAccepted(spec) && SpecAccepted(after) && TargetIn(k, after) != TargetIn(k, spec)
    ensures
      var w := Retargeted(k, uid, spec, after, clusterName, now, map[], kubeconfig);
      var v := Forgetful(w, k);
      && v.exports[k].finalizer && LookupKey(v.exports[k]) !in v.secrets && v.secrets == w.secrets
  {
    var w := Retargeted(k, uid, spec, after, clusterName, now, map[], kubeconfig);
    RetargetedRecords(k, uid, spec, after, clusterName, now, map[], kubeconfig);
    CommitRecords(w.exports[k], Failure(None, None, false, true, REASON_MISSING_CLUSTER));
    assert after.targetName != "";
    hide CommittedStatus, LookupKey, SpecTarget, Rewrite, RotationReport;
  }

  lemma RetargetedOwns(k: Key, uid: string, spec: Spec, after: Spec, clusterName: string, now: Nanos, kubeconfig: Bytes, v: World)
    requires v.secrets == Retargeted(k, uid, spec, after, clusterName, now, map[], kubeconfig).secrets
    ensures Owned(v, uid) == {TargetIn(k, spec)}
  {
    var pass := PassFor(Created(k, uid, spec, clusterName, now, map[]), k);
    RewriteLabels(NEW_SECRET, pass.item, pass.clusterName, kubeconfig, now);
    hide Rewrite, CommittedStatus, RotationReport;
  }
}
