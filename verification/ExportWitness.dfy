/** Runs from an initial world that show the conditions on exports to be needed. */
module ExportWitness {
  import opened Kube
  import opened TrimmedText
  import opened KubeconfigExport
  import opened ExportModel
  import opened ExportSteps
  import opened ExportRuns
  import opened ExportTruth
  import opened ExportRate

  predicate ReportsExported(w: World, k: Key)
    requires k in w.exports
  {
    var c := w.exports[k].status.conditions;
    CONDITION_EXPORTED in c && c[CONDITION_EXPORTED].holds
  }

  predicate Named(k: Key) {
    k.namespace != "" && k.name != ""
  }

  function TargetIn(k: Key, spec: Spec): Key {
    Key(if spec.targetNamespace != "" then spec.targetNamespace else k.namespace, spec.targetName)
  }

  /** There are accepted specs. */
  lemma SomeSpecAccepted(policy: string)
    requires policy in {POLICY_DELETE, POLICY_ORPHAN}
    ensures SpecAccepted(Spec("c", "new", "ns", "", "ci", ["deployers"], false, "", 10 * SECOND, None, policy))
  {
    forall t | t in {"c", "new", "ns", DEFAULT_SECRET_KEY, "ci", "deployers"} ensures !Blank(t) {
      BlankMeansOnlySpace(t);
      assert !IsSpace(t[0]);
    }
    assert TrimSpace("deployers") == "deployers";
  }

  // ---------------------------------------------------------------- a first export

  lemma CreatedReady(k: Key, uid: string, spec: Spec, clusterName: string, now: Nanos, secrets: map<Key, Secret>, verdict: Verdict)
    requires SpecAccepted(spec) && TargetIn(k, spec) !in secrets
    ensures
      var w := Created(k, uid, spec, clusterName, now, secrets);
      && Ready(w, k) && Reuses(w, k, verdict).None? && !Occupied(w.exports[k], w.secrets)
      && RecordedTargetSettled(w.exports[k], w.secrets) && CleanedSecrets(w.secrets, w.exports[k]) == secrets
      && BaseOf(w.exports[k], w.secrets) == None && Home(w.exports[k], w.secrets) == TargetIn(k, spec)
  {
    hide SpecAccepted, CurrentState;
  }

  /** The world once a new export has written its Secret and is about to report it. */
  function FirstWrite(k: Key, uid: string, spec: Spec, clusterName: string, now: Nanos, secrets: map<Key, Secret>,
                      kubeconfig: Bytes): World
  {
    var w := Created(k, uid, spec, clusterName, now, secrets);
    var pass := PassFor(w, k);
    Goto(w, k, Reporting(RotationReport(pass, kubeconfig)))
      .(secrets := secrets[TargetIn(k, spec) := Rewrite(NEW_SECRET, pass.item, pass.clusterName, kubeconfig, now)])
  }

  lemma FirstWriteRun(k: Key, uid: string, spec: Spec, clusterName: string, now: Nanos, secrets: map<Key, Secret>, kubeconfig: Bytes)
    returns (ws: seq<World>, steps: seq<Step>)
    requires Named(k) && uid != "" && SpecAccepted(spec) && TargetIn(k, spec) !in secrets
    ensures IsRun(ws, steps) && ws[0] == Fresh(k, spec, clusterName, now, secrets)
    ensures steps == [Create(k, uid, spec), Begin(k, true)] + WritePath(k, Usable, kubeconfig)
    ensures ws[2] == Created(k, uid, spec, clusterName, now, secrets) && Busy(ws, k, 2, 8)
    ensures ws[8] == FirstWrite(k, uid, spec, clusterName, now, secrets, kubeconfig)
  {
    hide Apply, Enabled, SpecAccepted, Rewrite, Reuses, Occupied, CleanedSecrets, RotationReport, Ready;
    ws, steps := CreateRun(k, uid, spec, clusterName, now, secrets);
    CreatedReady(k, uid, spec, clusterName, now, secrets, Usable);
    ws, steps := WriteRun(ws, steps, k, Usable, kubeconfig);
  }

  // ---------------------------------------------------------------- an edit in mid-pass

  function Edited(w: World, k: Key, spec: Spec): World
    requires k in w.exports
  {
    w.(exports := w.exports[k := w.exports[k].(spec := spec, generation := w.exports[k].generation + 1)])
  }

  lemma MidPassRun(k: Key, uid: string, spec: Spec, edited: Spec, clusterName: string, now: Nanos, kubeconfig: Bytes)
    returns (ws: seq<World>, steps: seq<Step>)
    requires Named(k) && uid != "" && SpecAccepted(spec)
    ensures IsRun(ws, steps) && |steps| == 10 && ws[0] == Fresh(k, spec, clusterName, now, map[])
    ensures ws[2] == Created(k, uid, spec, clusterName, now, map[]) && Busy(ws, k, 2, 9)
    ensures ws[9] == Edited(FirstWrite(k, uid, spec, clusterName, now, map[], kubeconfig), k, edited)
    ensures steps[2] == Begin(k, true) && steps[8] == EditSpec(k, edited) && steps[9] == Commit(k, true)
    ensures forall j :: 2 <= j < 8 ==> Actor(steps[j]) == Some(k)
    ensures ws[8].secrets == ws[9].secrets && Enabled(ws[9], Commit(k, true))
    ensures ws[10] == Committed(ws[9], k, true, ws[9].workers[k].report)
  {
    hide Apply, Enabled, SpecAccepted, Rewrite, CommittedStatus;
    ws, steps := FirstWriteRun(k, uid, spec, clusterName, now, map[], kubeconfig);
    EditStep(ws[8], k, edited);
    var w9 := Edited(ws[8], k, edited);
    ws, steps := Grow(ws, steps, EditSpec(k, edited), w9);
    StepCommit(w9, k, true);
    ws, steps := Grow(ws, steps, Commit(k, true), Committed(w9, k, true, w9.workers[k].report));
  }

  /**
   For every accepted spec and every other target: a user who retargets the export after its pass has
   written the Secret and before it reports makes it report Exported=True for a Secret that does not
   exist, although the recorded target was settled and nobody touched the Secrets.
   */
  lemma MidPassEditMisreports(k: Key, uid: string, spec: Spec, edited: Spec, clusterName: string, now: Nanos, kubeconfig: Bytes)
    returns (ws: seq<World>, steps: seq<Step>)
    requires Named(k) && uid != "" && SpecAccepted(spec) && TargetIn(k, edited) != TargetIn(k, spec)
    ensures IsRun(ws, steps) && |steps| == 10 && Init(ws[0]) && steps[8] == EditSpec(k, edited)
    ensures Exports(ws, steps, k, 2, 9) && SecretsLeft(ws, steps, k, 2, 9)
    ensures RecordedTargetSettled(ws[2].exports[k], ws[2].secrets)
    ensures k in ws[10].exports && ReportsExported(ws[10], k) && !Truthful(ws[10], k) && TargetIn(k, edited) !in ws[10].secrets
  {
    hide Apply, Enabled, SpecAccepted, Rewrite, CommittedStatus, Obtained, Truthful, LookupKey, Ready, Reuses, Occupied, Home, BaseOf;
    ws, steps := MidPassRun(k, uid, spec, edited, clusterName, now, kubeconfig);
    CreatedReady(k, uid, spec, clusterName, now, map[], Usable);
    CommitReports(ws[9], k);
    TruthAtCommit(ws, steps, k, 2, 9);
  }

  lemma EditStep(w: World, k: Key, spec: Spec)
    requires k in w.exports
    ensures Enabled(w, EditSpec(k, spec))
    ensures Apply(w, EditSpec(k, spec)) == Edited(w, k, spec)
  {
  }

  lemma CommitReports(w: World, k: Key)
    requires Enabled(w, Commit(k, true)) && w.workers[k].Reporting? && w.workers[k].report.exported
    ensures k in Committed(w, k, true, w.workers[k].report).exports
    ensures ReportsExported(Committed(w, k, true, w.workers[k].report), k)
    ensures Committed(w, k, true, w.workers[k].report).secrets == w.secrets
  {
  }

  // ---------------------------------------------------------------- an Orphan-policy retarget

  /** The world once a first export has been reported and its spec edited. */
  function Retargeted(k: Key, uid: string, spec: Spec, after: Spec, clusterName: string, now: Nanos,
                      secrets: map<Key, Secret>, kubeconfig: Bytes): World
  {
    var w := FirstWrite(k, uid, spec, clusterName, now, secrets, kubeconfig);
    var item := w.exports[k];
    Goto(w, k, Idle).(exports := map[k := item.(status := CommittedStatus(item, w.workers[k].report), spec := after, generation := 2)])
  }

  function RetargetPath(k: Key, uid: string, spec: Spec, after: Spec, kubeconfig: Bytes): seq<Step> {
    [Create(k, uid, spec), Begin(k, true)] + WritePath(k, Usable, kubeconfig) + [Commit(k, true), EditSpec(k, after)]
  }

  lemma RetargetRun(k: Key, uid: string, spec: Spec, after: Spec, clusterName: string, now: Nanos, secrets: map<Key, Secret>, kubeconfig: Bytes)
    returns (ws: seq<World>, steps: seq<Step>)
    requires Named(k) && uid != "" && SpecAccepted(spec) && TargetIn(k, spec) !in secrets
    ensures IsRun(ws, steps) && ws[0] == Fresh(k, spec, clusterName, now, secrets)
    ensures steps == RetargetPath(k, uid, spec, after, kubeconfig)
    ensures ws[10] == Retargeted(k, uid, spec, after, clusterName, now, secrets, kubeconfig)
  {
    hide Apply, Enabled, SpecAccepted, Rewrite, CommittedStatus, RotationReport;
    ws, steps := FirstWriteRun(k, uid, spec, clusterName, now, secrets, kubeconfig);
    var w8 := ws[8];
    StepCommit(w8, k, true);
    var w9 := Committed(w8, k, true, w8.workers[k].report);
    ws, steps := Grow(ws, steps, Commit(k, true), w9);
    EditStep(w9, k, after);
    ws, steps := Grow(ws, steps, EditSpec(k, after), Retargeted(k, uid, spec, after, clusterName, now, secrets, kubeconfig));
  }

  /** The recorded target is the old one. */
  lemma RetargetedRecords(k: Key, uid: string, spec: Spec, after: Spec, clusterName: string, now: Nanos,
                          secrets: map<Key, Secret>, kubeconfig: Bytes)
    requires Named(k) && SpecAccepted(spec)
    ensures
      var item := Retargeted(k, uid, spec, after, clusterName, now, secrets, kubeconfig).exports[k];
      && item.spec == after && item.key == k && item.uid == uid && item.finalizer && !item.deleting
      && item.status.targetName == spec.targetName != "" && item.status.targetNamespace != ""
      && LookupKey(item) == PreviousKey(item) == TargetIn(k, spec) && SpecTarget(item) == TargetIn(k, after)
  {
    hide AcceptedCondition, GroupAccepted, LifetimeAccepted, Rewrite;
  }

  /**
   For every accepted Orphan-policy spec: after a retarget to a name that does not exist, the next pass
   reuses the old Secret, if it is still current, and reports Exported=True for the missing one.
   */
  lemma OrphanRetargetReportsMissingSecret(k: Key, uid: string, spec: Spec, name: string, clusterName: string, now: Nanos, kubeconfig: Bytes)
    returns (ws: seq<World>, steps: seq<Step>)
    requires Named(k) && uid != "" && SpecAccepted(spec) && spec.deletionPolicy == POLICY_ORPHAN
    requires name != spec.targetName && !Blank(name)
    requires kubeconfig != [] && !RotationDue(now, FloorSecond(now + spec.ttl), spec.renewBefore)
    ensures IsRun(ws, steps) && |steps| == 15 && Init(ws[0]) && Exports(ws, steps, k, 10, 14)
    ensures k in ws[15].exports && ReportsExported(ws[15], k) && !Truthful(ws[15], k)
    ensures TargetIn(k, spec.(targetName := name)) !in ws[15].secrets
  {
    hide Apply, Enabled, SpecAccepted, Rewrite, Reuses, Obtained, Truthful, CommittedStatus, LookupKey, RotationReport;
    var after := spec.(targetName := name);
    ws, steps := OrphanRun(k, uid, spec, name, clusterName, now, kubeconfig);
    RetargetedRecords(k, uid, spec, after, clusterName, now, map[], kubeconfig);
    CommitReports(ws[14], k);
    TruthAtCommit(ws, steps, k, 10, 14);
  }

  lemma RenamedAccepted(spec: Spec, name: string)
    requires SpecAccepted(spec) && !Blank(name)
    ensures SpecAccepted(spec.(targetName := name))
  {
    hide Blank, GroupAccepted;
    assert TargetSecretKey(spec) == TargetSecretKey(spec.(targetName := name));
    assert forall g :: GroupAccepted(spec, g) <==> GroupAccepted(spec.(targetName := name), g) by { SameGroups(spec, name); }
  }

  lemma SameGroups(spec: Spec, name: string)
    ensures forall g :: GroupAccepted(spec, g) <==> GroupAccepted(spec.(targetName := name), g)
  {
  }

  lemma OrphanRun(k: Key, uid: string, spec: Spec, name: string, clusterName: string, now: Nanos, kubeconfig: Bytes)
    returns (ws: seq<World>, steps: seq<Step>)
    requires Named(k) && uid != "" && SpecAccepted(spec) && spec.deletionPolicy == POLICY_ORPHAN
    requires name != spec.targetName && !Blank(name)
    requires kubeconfig != [] && !RotationDue(now, FloorSecond(now + spec.ttl), spec.renewBefore)
    ensures IsRun(ws, steps) && |steps| == 15 && ws[0] == Fresh(k, spec, clusterName, now, map[]) && Busy(ws, k, 10, 14)
    ensures ws[10] == Retargeted(k, uid, spec, spec.(targetName := name), clusterName, now, map[], kubeconfig)
    ensures steps[10] == Begin(k, true) && steps[14] == Commit(k, true) && Enabled(ws[14], Commit(k, true))
    ensures k in ws[14].workers && ws[14].workers[k].Reporting? && ws[14].workers[k].report.exported
    ensures ws[14].exports == ws[10].exports && ws[14].secrets.Keys == {TargetIn(k, spec)}
    ensures ws[15] == Committed(ws[14], k, true, ws[14].workers[k].report)
  {
    var after := spec.(targetName := name);
    RenamedAccepted(spec, name);
    hide Apply, Enabled, SpecAccepted, Rewrite, CommittedStatus, Reuses, CleanedSecrets, RotationReport, Ready;
    ws, steps := RetargetRun(k, uid, spec, after, clusterName, now, map[], kubeconfig);
    RetargetedReady(k, uid, spec, after, clusterName, now, map[], kubeconfig);
    OrphanReuses(k, uid, spec, name, clusterName, now, kubeconfig);
    ws, steps := ReuseRun(ws, steps, k, Usable);
    StepCommit(ws[14], k, true);
  }

  lemma RetargetedReady(k: Key, uid: string, spec: Spec, after: Spec, clusterName: string, now: Nanos, secrets: map<Key, Secret>, kubeconfig: Bytes)
    requires Named(k) && SpecAccepted(spec) && SpecAccepted(after) && after.clusterRef == spec.clusterRef
    ensures Ready(Retargeted(k, uid, spec, after, clusterName, now, secrets, kubeconfig), k)
  {
    hide SpecAccepted, CommittedStatus, Rewrite, RotationReport;
  }

  lemma OrphanReuses(k: Key, uid: string, spec: Spec, name: string, clusterName: string, now: Nanos, kubeconfig: Bytes)
    requires Named(k) && SpecAccepted(spec) && spec.deletionPolicy == POLICY_ORPHAN
    requires kubeconfig != [] && !RotationDue(now, FloorSecond(now + spec.ttl), spec.renewBefore)
    ensures
      var w := Retargeted(k, uid, spec, spec.(targetName := name), clusterName, now, map[], kubeconfig);
      && Reuses(w, k, Usable).Some? && CleanedSecrets(w.secrets, w.exports[k]) == w.secrets
      && w.secrets.Keys == {TargetIn(k, spec)}
  {
    hide CurrentState, SpecAccepted, Rewrite, CommittedStatus, LookupKey, SpecTarget, PreviousKey, IsOwnedSecret, RotationReport, RotationDue;
    var after := spec.(targetName := name);
    var w := Retargeted(k, uid, spec, after, clusterName, now, map[], kubeconfig);
    RetargetedRecords(k, uid, spec, after, clusterName, now, map[], kubeconfig);
    var pass := PassFor(Created(k, uid, spec, clusterName, now, map[]), k);
    RewrittenIsCurrentIff(NEW_SECRET, pass.item, pass.clusterName, kubeconfig, now, now);
    assert SpecHash(w.exports[k], pass.clusterName) == SpecHash(pass.item, pass.clusterName);
  }
}
