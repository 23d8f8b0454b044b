/**
 Retargeting onto a name that is already taken: when a pass can write its Secret at all, and why an
 export in that predicament stays in it.
 */
module ExportOccupied {
  import opened Kube
  import opened KubeconfigExport
  import opened ExportModel
  import opened ExportSteps
  import opened ExportRuns
  import opened ExportTruth
  import opened ExportWitness

  /**
   In any run whose other steps leave the two Secrets alone, a pass that has its kubeconfig can write
   it exactly when, before the pass, the spec target was not occupied.
   */
  lemma WritableIffNotOccupied(ws: seq<World>, steps: seq<Step>, k: Key, b: nat, n: nat)
    requires InPass(ws, steps, k, b, n) && SecretsLeft(ws, steps, k, b, n) && WorkerOf(ws[n], k).Writing?
    ensures Enabled(ws[n], WriteSecret(k, Done)) <==> !Occupied(ws[b].exports[k], ws[b].secrets)
  {
    PassOnTrack(ws, steps, k, b, n);
    SettledMeansHome(ws[b].exports[k], ws[b].secrets);
    WriteEnabled(ws[n], k);
    hide Apply, Enabled, LeavesSecrets, CleanedSecrets, LookupKey, SpecTarget;
  }

  lemma WriteEnabled(w: World, k: Key)
    requires WorkerOf(w, k).Writing?
    ensures Enabled(w, WriteSecret(k, Done)) <==> WriteAccepted(w, w.workers[k].pass, w.workers[k].base)
  {
  }

  // ---------------------------------------------------------------- staying in it

  /** The part of an export that a pass without a report never changes. */
  predicate SameClaim(x: Export, item: Export) {
    x.key == item.key && x.uid == item.uid && x.spec == item.spec && x.status == item.status
  }

  lemma SameClaimSame(x: Export, item: Export)
    requires SameClaim(x, item)
    ensures LookupKey(x) == LookupKey(item) && SpecTarget(x) == SpecTarget(item) && PreviousKey(x) == PreviousKey(item)
    ensures CleanupNeeded(x) == CleanupNeeded(item)
    ensures forall secrets :: CleanupDeletes(x, secrets) == CleanupDeletes(item, secrets)
    ensures forall secrets :: Occupied(x, secrets) == Occupied(item, secrets)
  {
  }

  /** The spec target is taken and the recorded Secret is out of reach, wherever the pass stands. */
  predicate Stuck(item: Export, w: World, k: Key) {
    && k in w.exports && SameClaim(w.exports[k], item) && !w.exports[k].deleting
    && Occupied(item, w.secrets)
    && match WorkerOf(w, k)
       case Idle => true
       case Resolving(x) => SameClaim(x, item)
       case Cleaning(pass) => SameClaim(pass.item, item)
       case Looking(pass) => SameClaim(pass.item, item) && LookupKey(item) !in w.secrets
       case Generating(pass, base) => SameClaim(pass.item, item) && LookupKey(item) !in w.secrets && base == None
       case Writing(pass, base, _) => SameClaim(pass.item, item) && LookupKey(item) !in w.secrets && base == None
       case Reporting(r) => !r.exported
       case Removing(_) => false
       case Releasing(_) => false
  }

  /** Nobody else touches the export or its two Secrets, and no report of it is stored. */
  predicate Undisturbed(w: World, s: Step, k: Key, item: Export)
    requires Enabled(w, s)
  {
    && LeavesSecrets(w, s, k, item)
    && (Actor(s) != Some(k) ==> k in w.exports ==> k in Apply(w, s).exports && Apply(w, s).exports[k] == w.exports[k])
    && s != Commit(k, true)
  }

  /** A write by this export's worker that takes effect. */
  predicate Lands(s: Step, k: Key) {
    s.WriteSecret? && s.k == k && !s.effect.Refused?
  }

  lemma OccupiedLeft(item: Export, w: World, v: World)
    requires Occupied(item, w.secrets) && SameSecret(w, v, LookupKey(item)) && SameSecret(w, v, SpecTarget(item))
    ensures Occupied(item, v.secrets)
  {
    hide IsOwnedSecret;
  }

  lemma StuckOther(w: World, s: Step, k: Key, item: Export)
    requires Enabled(w, s) && Stuck(item, w, k) && Undisturbed(w, s, k, item) && Actor(s) != Some(k)
    ensures Stuck(item, Apply(w, s), k)
  {
    WorkerAfter(w, s, k);
    OccupiedLeft(item, w, Apply(w, s));
    hide Apply, Enabled, Occupied, LookupKey, SpecTarget;
  }

  lemma StuckBegin(w: World, k: Key, ok: bool, item: Export)
    requires Enabled(w, Begin(k, ok)) && Stuck(item, w, k)
    ensures Stuck(item, Apply(w, Begin(k, ok)), k)
  {
    StepBegin(w, k, ok);
    hide Apply, Enabled, Occupied, LookupKey, SpecAccepted, Snapshot, PassOf, CoherentReport;
  }

  lemma StuckCleanup(w: World, k: Key, e: Effect, item: Export)
    requires Enabled(w, Cleanup(k, e)) && Stuck(item, w, k)
    ensures Stuck(item, Apply(w, Cleanup(k, e)), k)
  {
    StepCleanup(w, k, e);
    hide Apply, Enabled;
    SameClaimSame(w.workers[k].pass.item, item);
    hide IsOwnedSecret;
  }

  lemma StuckLookup(w: World, k: Key, ok: bool, verdict: Verdict, item: Export)
    requires Enabled(w, Lookup(k, ok, verdict)) && Stuck(item, w, k)
    ensures Stuck(item, Apply(w, Lookup(k, ok, verdict)), k)
  {
    StepLookup(w, k, ok, verdict);
    SameClaimSame(w.workers[k].pass.item, item);
    hide Apply, Enabled, Occupied, LookupKey, CurrentState, Snapshot, PassOf, CoherentReport;
  }

  lemma StuckWrite(w: World, k: Key, e: Effect, item: Export)
    requires Enabled(w, WriteSecret(k, e)) && Stuck(item, w, k)
    ensures e.Refused? && Stuck(item, Apply(w, WriteSecret(k, e)), k)
  {
    SameClaimSame(w.workers[k].pass.item, item);
    hide LookupKey, SpecTarget, CleanedSecrets, Rewrite;
  }

  lemma StuckStep(w: World, s: Step, k: Key, item: Export)
    requires Enabled(w, s) && Stuck(item, w, k) && Undisturbed(w, s, k, item)
    ensures Stuck(item, Apply(w, s), k) && !Lands(s, k)
  {
    if Actor(s) != Some(k) {
      StuckOther(w, s, k, item);
      hide Stuck, Apply, Enabled;
    } else {
      match s
      case Begin(_, ok) => StuckBegin(w, k, ok, item);
      case Cleanup(_, e) => StuckCleanup(w, k, e, item);
      case Lookup(_, ok, verdict) => StuckLookup(w, k, ok, verdict, item);
      case WriteSecret(_, e) => StuckWrite(w, k, e, item);
      case _ => hide Occupied, LookupKey, SpecTarget, CommittedStatus, FinalDeletes, CoherentReport;
    }
  }

  ghost predicate UndisturbedRun(ws: seq<World>, steps: seq<Step>, k: Key, item: Export) {
    IsRun(ws, steps) && forall i :: 0 <= i < |steps| ==> Enabled(ws[i], steps[i]) && Undisturbed(ws[i], steps[i], k, item)
  }

  /**
   Retargeting onto a taken name never settles by itself: however many passes a run holds and
   whichever of their calls fail, no write of this export lands and its status stays as it was.
   */
  lemma {:induction false} OccupiedTargetNeverSettles(ws: seq<World>, steps: seq<Step>, k: Key, n: nat)
    requires n < |ws| && k in ws[0].exports && UndisturbedRun(ws, steps, k, ws[0].exports[k])
    requires Occupied(ws[0].exports[k], ws[0].secrets) && WorkerOf(ws[0], k).Idle? && !ws[0].exports[k].deleting
    ensures Stuck(ws[0].exports[k], ws[n], k)
    ensures forall j :: 0 <= j < n ==> !Lands(steps[j], k)
    decreases n
  {
    hide Apply, Enabled, Occupied, Undisturbed;
    if n > 0 {
      OccupiedTargetNeverSettles(ws, steps, k, n - 1);
      hide Stuck, Lands;
      StuckStep(ws[n - 1], steps[n - 1], k, ws[0].exports[k]);
    }
  }

  /** The one way out: a stored failure report names the spec target, so the next pass adopts what sits there. */
  lemma ReportEndsIt(w: World, k: Key)
    requires Enabled(w, Commit(k, true)) && w.exports[k].key.namespace != "" && w.exports[k].spec.targetName != ""
    ensures
      var v := Apply(w, Commit(k, true));
      k in v.exports && LookupKey(v.exports[k]) == SpecTarget(v.exports[k]) && !Occupied(v.exports[k], v.secrets)
  {
    hide AcceptedCondition;
  }

  // ---------------------------------------------------------------- a run into it, and round and round

  function StuckPath(k: Key, kubeconfig: Bytes): seq<Step> {
    LookPath(k) + [Lookup(k, true, Usable), Generate(k, Some(kubeconfig)), WriteSecret(k, Refused)]
  }

  /** A pass in this predicament obtains a kubeconfig for nothing, and ends where it began. */
  lemma StuckRun(ws0: seq<World>, steps0: seq<Step>, k: Key, kubeconfig: Bytes) returns (ws: seq<World>, steps: seq<Step>)
    requires IsRun(ws0, steps0) && Ready(ws0[|steps0|], k) && Occupied(ws0[|steps0|].exports[k], ws0[|steps0|].secrets)
    ensures IsRun(ws, steps) && ws0 <= ws && steps == steps0 + StuckPath(k, kubeconfig)
    ensures Ready(ws[|steps|], k) && Occupied(ws[|steps|].exports[k], ws[|steps|].secrets)
    ensures ws[|steps|].exports == ws0[|steps0|].exports
  {
    hide Apply, Enabled, SpecAccepted, CleanupDeletes, LookupKey, SpecTarget;
    var w := ws0[|steps0|];
    var pass := PassFor(w, k);
    ws, steps := LookRun(ws0, steps0, k);
    LookupRotates(w, k, Usable);
    var w4 := Goto(Looks(w, k), k, Generating(pass, None));
    ws, steps := Grow(ws, steps, Lookup(k, true, Usable), w4);
    StepGenerate(w4, k, Some(kubeconfig));
    var w5 := Goto(w4, k, Writing(pass, None, kubeconfig));
    ws, steps := Grow(ws, steps, Generate(k, Some(kubeconfig)), w5);
    StepWrite(w5, k, Refused);
    var w6 := Goto(w5, k, Idle);
    ws, steps := Grow(ws, steps, WriteSecret(k, Refused), w6);
    assert steps == steps0 + StuckPath(k, kubeconfig);
    StillOccupied(w.exports[k], w.secrets);
  }

  lemma StillOccupied(item: Export, secrets: map<Key, Secret>)
    requires Occupied(item, secrets)
    ensures Occupied(item, CleanedSecrets(secrets, item))
  {
    hide IsOwnedSecret;
  }

  /** The kubeconfigs Omni has issued to this export. */
  function IssuedTo(steps: seq<Step>, k: Key): seq<Bytes> {
    if steps == [] then []
    else
      var s := steps[|steps| - 1];
      IssuedTo(steps[..|steps| - 1], k) + (if s.Generate? && s.k == k && s.issued.Some? then [s.issued.value] else [])
  }

  lemma {:induction false} IssuedConcat(a: seq<Step>, b: seq<Step>, k: Key)
    ensures IssuedTo(a + b, k) == IssuedTo(a, k) + IssuedTo(b, k)
    decreases |b|
  {
    if b == [] {
      assert a + b == a;
    } else {
      assert (a + b)[..|a + b| - 1] == a + b[..|b| - 1];
      IssuedConcat(a, b[..|b| - 1], k);
    }
  }

  lemma {:induction false} IssuedNothing(steps: seq<Step>, k: Key)
    requires forall s :: s in steps ==> !s.Generate?
    ensures IssuedTo(steps, k) == []
  {
    if steps != [] {
      IssuedNothing(steps[..|steps| - 1], k);
    }
  }

  /** Steps of which one obtains a kubeconfig and no other asks for any. */
  lemma IssuedOnce(before: seq<Step>, after: seq<Step>, k: Key, kubeconfig: Bytes)
    requires forall s :: s in before + after ==> !s.Generate?
    ensures IssuedTo(before + [Generate(k, Some(kubeconfig))] + after, k) == [kubeconfig]
  {
    var g := [Generate(k, Some(kubeconfig))];
    assert forall s :: s in before || s in after ==> s in before + after;
    IssuedNothing(before, k);
    IssuedNothing(after, k);
    IssuedConcat(before, g, k);
    IssuedConcat(before + g, after, k);
    assert g[..0] == [];
  }

  lemma IssuedByPass(steps: seq<Step>, k: Key, kubeconfig: Bytes)
    ensures IssuedTo(steps + StuckPath(k, kubeconfig), k) == IssuedTo(steps, k) + [kubeconfig]
  {
    hide IssuedTo;
    var before, after := LookPath(k) + [Lookup(k, true, Usable)], [WriteSecret(k, Refused)];
    assert StuckPath(k, kubeconfig) == before + [Generate(k, Some(kubeconfig))] + after;
    IssuedOnce(before, after, k, kubeconfig);
    IssuedConcat(steps, StuckPath(k, kubeconfig), k);
  }

  /**
   For every two accepted Delete-policy specs that differ in their target: a run from an initial world in
   which a foreign Secret sits at the second target, the export is retargeted to it, and the passes that
   follow use up any number of kubeconfigs without ever reporting anything.
   */
  lemma {:induction false} OccupiedLoop(k: Key, uid: string, spec: Spec, after: Spec, clusterName: string, now: Nanos, first: Bytes,
                                        kubeconfigs: seq<Bytes>)
    returns (ws: seq<World>, steps: seq<Step>)
    requires Named(k) && uid != "" && SpecAccepted(spec) && SpecAccepted(after) && after.clusterRef == spec.clusterRef
    requires after.deletionPolicy == POLICY_DELETE && TargetIn(k, after) != TargetIn(k, spec)
    ensures IsRun(ws, steps) && 10 <= |steps| && Init(ws[0]) && steps[9] == EditSpec(k, after)
    ensures Ready(ws[10], k) && Occupied(ws[10].exports[k], ws[10].secrets)
    ensures Ready(ws[|steps|], k) && Occupied(ws[|steps|].exports[k], ws[|steps|].secrets)
    ensures ws[|steps|].exports == ws[10].exports && IssuedTo(steps, k) == [first] + kubeconfigs
    decreases |kubeconfigs|
  {
    hide Apply, Enabled, Ready, Occupied, IssuedTo, SpecAccepted;
    if kubeconfigs == [] {
      ws, steps := OccupiedReached(k, uid, spec, after, clusterName, now, first);
    } else {
      var n := |kubeconfigs| - 1;
      var ws0, steps0 := OccupiedLoop(k, uid, spec, after, clusterName, now, first, kubeconfigs[..n]);
      ws, steps := StuckRun(ws0, steps0, k, kubeconfigs[n]);
      IssuedByPass(steps0, k, kubeconfigs[n]);
      assert kubeconfigs == kubeconfigs[..n] + [kubeconfigs[n]];
    }
  }

  lemma OccupiedReached(k: Key, uid: string, spec: Spec, after: Spec, clusterName: string, now: Nanos, first: Bytes)
    returns (ws: seq<World>, steps: seq<Step>)
    requires Named(k) && uid != "" && SpecAccepted(spec) && SpecAccepted(after) && after.clusterRef == spec.clusterRef
    requires after.deletionPolicy == POLICY_DELETE && TargetIn(k, after) != TargetIn(k, spec)
    ensures IsRun(ws, steps) && |steps| == 10 && Init(ws[0]) && steps[9] == EditSpec(k, after)
    ensures Ready(ws[10], k) && Occupied(ws[10].exports[k], ws[10].secrets) && IssuedTo(steps, k) == [first]
  {
    hide Apply, Enabled, Ready, Occupied, IssuedTo, SpecAccepted, Retargeted;
    var secrets := map[TargetIn(k, after) := NEW_SECRET];
    ws, steps := RetargetRun(k, uid, spec, after, clusterName, now, secrets, first);
    RetargetedReady(k, uid, spec, after, clusterName, now, secrets, first);
    RetargetedOccupied(k, uid, spec, after, clusterName, now, first);
    IssuedFirst(steps, k, uid, spec, after, first);
  }

  lemma RetargetedOccupied(k: Key, uid: string, spec: Spec, after: Spec, clusterName: string, now: Nanos, first: Bytes)
    requires Named(k) && uid != "" && SpecAccepted(spec) && after.deletionPolicy == POLICY_DELETE && TargetIn(k, after) != TargetIn(k, spec)
    ensures
      var w := Retargeted(k, uid, spec, after, clusterName, now, map[TargetIn(k, after) := NEW_SECRET], first);
      Occupied(w.exports[k], w.secrets)
  {
    hide SpecAccepted, CommittedStatus, LookupKey, PreviousKey, SpecTarget;
    RetargetedRecords(k, uid, spec, after, clusterName, now, map[TargetIn(k, after) := NEW_SECRET], first);
  }

  lemma IssuedFirst(steps: seq<Step>, k: Key, uid: string, spec: Spec, after: Spec, first: Bytes)
    requires steps == RetargetPath(k, uid, spec, after, first)
    ensures IssuedTo(steps, k) == [first]
  {
    hide IssuedTo;
    var before := [Create(k, uid, spec), Begin(k, true)] + LookPath(k) + [Lookup(k, true, Usable)];
    var rest := [WriteSecret(k, Done), Commit(k, true), EditSpec(k, after)];
    assert steps == before + [Generate(k, Some(first))] + rest;
    IssuedOnce(before, rest, k, first);
  }
}
