/**
 How often an export can rotate.  The expiry goes through an annotation rounded down to the second,
 so a rotation can come up to one nanosecond short of a second early, and no earlier.
 */
module ExportRate {
  import opened Kube
  import opened KubeconfigExport
  import opened ExportModel
  import opened ExportSteps

  /** The fixed part of a calm run: which export, with which spec, against which cluster name. */
  datatype Fixed = Fixed(k: Key, spec: Spec, clusterName: string)

  function TargetOf(f: Fixed): Key {
    Key(if f.spec.targetNamespace != "" then f.spec.targetNamespace else f.k.namespace, f.spec.targetName)
  }

  /** The least time between two rotations. */
  function Gap(spec: Spec): Nanos {
    spec.ttl - (if spec.renewBefore.Some? && spec.renewBefore.value > 0 then spec.renewBefore.value else 0) - 999_999_999
  }

  /** The item is this export, its spec is the fixed one, and no other target is recorded for it. */
  predicate Settled(item: Export, f: Fixed) {
    && item.key == f.k
    && item.spec == f.spec
    && !item.deleting
    && LookupKey(item) == SpecTarget(item)
    && (item.status.targetName != "" ==> PreviousKey(item) == SpecTarget(item))
  }

  predicate NamesCluster(w: World, f: Fixed) {
    var ck := Key(f.k.namespace, f.spec.clusterRef);
    ck in w.clusters ==> ClusterName(ck.name, w.clusters[ck]) == f.clusterName
  }

  /**
   A calm step: nobody edits or deletes this export, renames its cluster or disturbs its Secret;
   Omni issues no empty kubeconfig; the live check proves nothing stale.
   */
  predicate Calm(w: World, s: Step, f: Fixed)
    requires Enabled(w, s)
  {
    var v := Apply(w, s);
    && NamesCluster(v, f)
    && (s.Create? || s.EditSpec? || s.MarkDeleted? ==> s.k != f.k)
    && (s.Lookup? && s.k == f.k ==> !s.verdict.Stale?)
    && (s.Generate? && s.k == f.k ==> s.issued != Some([]))
    && (Actor(s) != Some(f.k) ==> SameSecret(w, v, TargetOf(f)))
  }

  /** The Secret holds a usable credential stamped by a rotation at time r. */
  predicate StampedAt(s: Secret, f: Fixed, r: Nanos) {
    var data := Datum(s, TargetSecretKey(f.spec));
    && data != []
    && Annotation(s, SPEC_HASH_ANNOTATION) == Hex(Sha256(KubeconfigInputs(f.clusterName,
         TargetSecretKey(f.spec), f.spec.contextNamespace, f.spec.user, f.spec.groups, f.spec.ttl)))
    && Annotation(s, HASH_ANNOTATION) == Hex(Hash(data))
    && Annotation(s, EXPIRATION_ANNOTATION) == Stamp(FloorSecond(r + f.spec.ttl))
    && Annotation(s, LAST_ROTATION_ANNOTATION) == Stamp(FloorSecond(r))
  }

  /** A worker is idle, reporting, or on a pass over the settled item that rotates only when due. */
  predicate OnSchedule(p: Worker, f: Fixed, now: Nanos, last: Option<Nanos>) {
    match p
    case Idle => true
    case Reporting(_) => true
    case Resolving(item) => Settled(item, f)
    case Removing(_) => false
    case Releasing(_) => false
    case Cleaning(pass) => PassOnSchedule(pass, f, now, last)
    case Looking(pass) => PassOnSchedule(pass, f, now, last)
    case Generating(pass, base) => PassOnSchedule(pass, f, now, last) && DueBy(pass, base, f, last)
    case Writing(pass, base, kubeconfig) =>
      PassOnSchedule(pass, f, now, last) && DueBy(pass, base, f, last) && kubeconfig != []
  }

  predicate PassOnSchedule(pass: Pass, f: Fixed, now: Nanos, last: Option<Nanos>) {
    && Settled(pass.item, f)
    && pass.clusterName == f.clusterName
    && pass.now <= now
    && (last.Some? ==> last.value <= pass.now)
  }

  predicate DueBy(pass: Pass, base: Option<Found>, f: Fixed, last: Option<Nanos>) {
    && (base.Some? ==> base.value.key == TargetOf(f))
    && (last.Some? ==> RotationDue(pass.now, FloorSecond(last.value + f.spec.ttl), f.spec.renewBefore))
  }

  /** The invariant of a calm run whose latest rotation was stamped `last`. */
  predicate Steady(w: World, f: Fixed, last: Option<Nanos>) {
    && NamesCluster(w, f)
    && f.k in w.exports && Settled(w.exports[f.k], f)
    && OnSchedule(WorkerOf(w, f.k), f, w.now, last)
    && (last.Some? ==>
          && last.value <= w.now
          && TargetOf(f) in w.secrets && StampedAt(w.secrets[TargetOf(f)], f, last.value))
  }

  function LastAfter(w: World, s: Step, f: Fixed, last: Option<Nanos>): Option<Nanos> {
    if Rotates(w, s, f) then Some(w.workers[f.k].pass.now) else last
  }

  /** This export's worker writes its Secret. */
  predicate Rotates(w: World, s: Step, f: Fixed) {
    s.WriteSecret? && s.k == f.k && !s.effect.Refused? && f.k in w.workers && w.workers[f.k].Writing?
  }

  // ---------------------------------------------------------------- one step

  lemma CommitSettles(latest: Export, r: Report, f: Fixed)
    requires Settled(latest, f)
    ensures Settled(latest.(status := CommittedStatus(latest, r)), f)
  {
  }

  /** A stamped Secret is reused until rotation is due on the rounded-down expiry. */
  lemma ReusedUntilDue(w: World, pass: Pass, f: Fixed, r: Nanos, verdict: Verdict)
    requires PassOnSchedule(pass, f, w.now, Some(r)) && !verdict.Stale?
    requires TargetOf(f) in w.secrets && StampedAt(w.secrets[TargetOf(f)], f, r)
    ensures Reusable(w, pass, verdict).Some?
      <==> !RotationDue(pass.now, FloorSecond(r + f.spec.ttl), f.spec.renewBefore)
  {
  }

  lemma RewriteStamps(base: Secret, pass: Pass, f: Fixed, kubeconfig: Bytes)
    requires Settled(pass.item, f) && pass.clusterName == f.clusterName && kubeconfig != []
    ensures StampedAt(Rewrite(base, pass.item, pass.clusterName, kubeconfig, pass.now), f, pass.now)
  {
    hide IsOwnedSecret;
  }

  lemma SettledTarget(item: Export, f: Fixed)
    requires Settled(item, f)
    ensures SpecTarget(item) == TargetOf(f)
  {
  }

  lemma DueMeansGap(now: Nanos, last: Nanos, spec: Spec)
    requires RotationDue(now, FloorSecond(last + spec.ttl), spec.renewBefore)
    ensures now - last >= Gap(spec)
  {
  }

  /** Steps that are not this export's worker's. */
  lemma SteadyOther(w: World, s: Step, f: Fixed, last: Option<Nanos>)
    requires Enabled(w, s) && Steady(w, f, last) && Calm(w, s, f) && Actor(s) != Some(f.k)
    ensures Steady(Apply(w, s), f, last)
  {
    hide Settled, StampedAt, CommittedStatus, Begun, Resolved, Cleaned, LookedUp, Generated, Written, Removed;
    OtherUnchanged(w, s, f);
  }

  lemma OtherUnchanged(w: World, s: Step, f: Fixed)
    requires Enabled(w, s) && Calm(w, s, f) && Actor(s) != Some(f.k) && f.k in w.exports
    ensures
      var v := Apply(w, s);
      f.k in v.exports && v.exports[f.k] == w.exports[f.k] && WorkerOf(v, f.k) == WorkerOf(w, f.k) && w.now <= v.now
  {
    hide Settled, StampedAt, NamesCluster, SpecAccepted, Begun, Resolved, Cleaned, LookedUp, Generated, Written, Committed, Removed;
  }

  lemma SteadyBegin(w: World, f: Fixed, ok: bool, last: Option<Nanos>)
    requires Enabled(w, Begin(f.k, ok)) && Steady(w, f, last)
    ensures Steady(Begun(w, f.k, ok), f, last)
  {
    hide StampedAt, SpecAccepted;
  }

  lemma SteadyResolve(w: World, f: Fixed, ok: bool, last: Option<Nanos>)
    requires Enabled(w, Resolve(f.k, ok)) && Steady(w, f, last)
    ensures Steady(Resolved(w, f.k, ok, w.workers[f.k].item), f, last)
  {
    hide StampedAt;
  }

  lemma SteadyCleanup(w: World, f: Fixed, e: Effect, last: Option<Nanos>)
    requires Enabled(w, Cleanup(f.k, e)) && Steady(w, f, last)
    ensures Steady(Cleaned(w, f.k, e, w.workers[f.k].pass), f, last)
  {
    hide StampedAt;
  }

  lemma SteadyLookup(w: World, f: Fixed, ok: bool, verdict: Verdict, last: Option<Nanos>)
    requires Enabled(w, Lookup(f.k, ok, verdict)) && Steady(w, f, last) && !verdict.Stale?
    ensures Steady(LookedUp(w, f.k, ok, verdict, w.workers[f.k].pass), f, last)
  {
    if last.Some? {
      ReusedUntilDue(w, w.workers[f.k].pass, f, last.value, verdict);
    }
    hide StampedAt, Reusable;
  }

  lemma SteadyWrite(w: World, f: Fixed, e: Effect, last: Option<Nanos>)
    requires Enabled(w, WriteSecret(f.k, e)) && !e.Refused? && Steady(w, f, last)
    ensures
      var p := w.workers[f.k];
      && Steady(Written(w, f.k, e, p.pass, p.base, p.kubeconfig), f, Some(p.pass.now))
      && (last.Some? ==> p.pass.now - last.value >= Gap(f.spec))
  {
    hide StampedAt, Rewrite, RotationReport, Settled, RotationDue, Gap, CoherentReport;
    var p := w.workers[f.k];
    RewriteStamps(if p.base.Some? then p.base.value.secret else NEW_SECRET, p.pass, f, p.kubeconfig);
    assert WriteKey(p.pass, p.base) == TargetOf(f) by { SettledTarget(p.pass.item, f); }
    if last.Some? {
      DueMeansGap(p.pass.now, last.value, f.spec);
    }
  }

  /** Every calm step keeps the run on schedule, and a rotation comes no sooner than the gap. */
  lemma SteadyStep(w: World, s: Step, f: Fixed, last: Option<Nanos>)
    requires Enabled(w, s) && Steady(w, f, last) && Calm(w, s, f)
    ensures Steady(Apply(w, s), f, LastAfter(w, s, f, last))
    ensures Rotates(w, s, f) && last.Some? ==> w.workers[f.k].pass.now - last.value >= Gap(f.spec)
  {
    hide Settled, StampedAt, Begun, Resolved, Cleaned, LookedUp, Generated, Written, Committed, Removed;
    if Actor(s) != Some(f.k) {
      SteadyOther(w, s, f, last);
    } else {
      match s
      case Begin(_, ok) => SteadyBegin(w, f, ok, last);
      case Resolve(_, ok) => SteadyResolve(w, f, ok, last);
      case Cleanup(_, e) => SteadyCleanup(w, f, e, last);
      case Lookup(_, ok, verdict) => SteadyLookup(w, f, ok, verdict, last);
      case Generate(_, _) =>
      case WriteSecret(_, e) => if !e.Refused? { SteadyWrite(w, f, e, last); }
      case Commit(_, _) => CommitSettles(w.exports[f.k], w.workers[f.k].report, f);
      case _ =>
    }
  }

  // ---------------------------------------------------------------- whole runs

  ghost predicate CalmRun(ws: seq<World>, steps: seq<Step>, f: Fixed) {
    && IsRun(ws, steps)
    && forall i :: 0 <= i < |steps| ==> Enabled(ws[i], steps[i]) && Calm(ws[i], steps[i], f)
  }

  /** The stamps of this export's rotations among the first n steps: the clock as each pass read it. */
  function Rotations(ws: seq<World>, steps: seq<Step>, f: Fixed, n: nat): seq<Nanos>
    requires n <= |steps| <= |ws|
  {
    if n == 0 then []
    else
      var before := Rotations(ws, steps, f, n - 1);
      if Rotates(ws[n - 1], steps[n - 1], f) then before + [ws[n - 1].workers[f.k].pass.now] else before
  }

  function Last(times: seq<Nanos>): Option<Nanos> {
    if times == [] then None else Some(times[|times| - 1])
  }

  predicate Spaced(times: seq<Nanos>, gap: Nanos) {
    forall i :: 0 <= i < |times| - 1 ==> times[i + 1] - times[i] >= gap
  }

  /**
   Rotations of a calm run are stamped at least ttl - renewBefore - 999,999,999 ns apart.
   */
  lemma {:induction false} RotationsSpaced(ws: seq<World>, steps: seq<Step>, f: Fixed, n: nat)
    requires CalmRun(ws, steps, f) && n <= |steps|
    requires Steady(ws[0], f, None) && WorkerOf(ws[0], f.k).Idle?
    ensures Spaced(Rotations(ws, steps, f, n), Gap(f.spec))
    ensures Steady(ws[n], f, Last(Rotations(ws, steps, f, n)))
  {
    hide Apply, Enabled, Steady, Calm;
    if n > 0 {
      RotationsSpaced(ws, steps, f, n - 1);
      SteadyStep(ws[n - 1], steps[n - 1], f, Last(Rotations(ws, steps, f, n - 1)));
    }
  }

  lemma {:induction false} SpacedSum(times: seq<Nanos>, gap: Nanos)
    requires times != [] && Spaced(times, gap)
    ensures (|times| - 1) * gap <= times[|times| - 1] - times[0]
  {
    if |times| > 1 {
      var init := times[..|times| - 1];
      SpacedSum(init, gap);
      assert times[|init|] - init[|init| - 1] >= gap;
      assert (|times| - 1) * gap == (|init| - 1) * gap + gap;
    }
  }

  /** Passes of a run that starts idle read the clock during the run. */
  lemma {:induction false} PassesAfterStart(ws: seq<World>, steps: seq<Step>, f: Fixed, n: nat)
    requires IsRun(ws, steps) && n <= |steps| && WorkerOf(ws[0], f.k).Idle?
    ensures ws[0].now <= ws[n].now
    ensures f.k in ws[n].workers && PassOf(ws[n].workers[f.k]).Some? ==> ws[0].now <= PassOf(ws[n].workers[f.k]).value.now
    ensures forall i :: 0 <= i < |Rotations(ws, steps, f, n)| ==> ws[0].now <= Rotations(ws, steps, f, n)[i]
  {
    hide Apply, Enabled;
    if n > 0 {
      PassesAfterStart(ws, steps, f, n - 1);
      ClockAfter(ws[n - 1], steps[n - 1]);
      if f.k in ws[n].workers && PassOf(ws[n].workers[f.k]).Some? {
        PassAfter(ws[n - 1], steps[n - 1], f.k);
      }
    }
  }

  /**
   The rotation rate: when the window between rotations exceeds a second, a calm run over a time
   span D rotates at most 1 + D / (ttl - renewBefore - 999,999,999 ns) times, so the Secret watch
   cannot drive a rotation loop.
   */
  lemma RotationRate(ws: seq<World>, steps: seq<Step>, f: Fixed)
    requires CalmRun(ws, steps, f)
    requires Steady(ws[0], f, None) && WorkerOf(ws[0], f.k).Idle?
    requires Gap(f.spec) > 0
    ensures |Rotations(ws, steps, f, |steps|)| <= 1 + (ws[|steps|].now - ws[0].now) / Gap(f.spec)
  {
    hide Apply, Enabled, Calm;
    var n := |steps|;
    var times := Rotations(ws, steps, f, n);
    RotationsSpaced(ws, steps, f, n);
    PassesAfterStart(ws, steps, f, n);
    var span, gap := ws[n].now - ws[0].now, Gap(f.spec);
    if times != [] {
      SpacedSum(times, gap);
      assert times[|times| - 1] <= ws[n].now;
      QuotientBound(|times| - 1, gap, span);
    } else {
      QuotientBound(0, gap, span);
    }
  }

  lemma QuotientBound(m: nat, gap: Nanos, span: Nanos)
    requires gap > 0 && m * gap <= span
    ensures m <= span / gap
  {
    var q := span / gap;
    assert span < (q + 1) * gap;
    if q + 1 <= m {
      MultipleMonotone(q + 1, m, gap);
    }
  }

  lemma {:induction false} MultipleMonotone(a: int, b: int, gap: Nanos)
    requires a <= b && gap > 0
    ensures a * gap <= b * gap
    decreases b - a
  {
    if a < b {
      MultipleMonotone(a + 1, b, gap);
      assert (a + 1) * gap == a * gap + gap;
    }
  }

  /** The times at which this export's writes take effect among the first n steps. */
  function Writes(ws: seq<World>, steps: seq<Step>, f: Fixed, n: nat): seq<Nanos>
    requires n <= |steps| <= |ws|
  {
    if n == 0 then []
    else
      var before := Writes(ws, steps, f, n - 1);
      if Rotates(ws[n - 1], steps[n - 1], f) then before + [ws[n - 1].now] else before
  }

  lemma WriteEndsPass(w: World, s: Step, f: Fixed)
    requires Enabled(w, s) && Rotates(w, s, f)
    ensures PassOf(WorkerOf(Apply(w, s), f.k)).None? && Apply(w, s).now == w.now
  {
    hide Rewrite, RotationReport;
  }

  /** Each write comes between the clock reading that stamps it and the one that stamps the next. */
  ghost predicate Interleaved(stamps: seq<Nanos>, writes: seq<Nanos>, now: Nanos) {
    && |stamps| == |writes|
    && (forall i :: 0 <= i < |stamps| ==> stamps[i] <= writes[i] <= now)
    && (forall i :: 0 < i < |stamps| ==> writes[i - 1] <= stamps[i])
  }

  lemma {:induction false} StampsAndWrites(ws: seq<World>, steps: seq<Step>, f: Fixed, n: nat)
    requires IsRun(ws, steps) && n <= |steps| && WorkerOf(ws[0], f.k).Idle?
    ensures Interleaved(Rotations(ws, steps, f, n), Writes(ws, steps, f, n), ws[n].now)
    ensures PassOf(WorkerOf(ws[n], f.k)).Some? ==>
      var t := PassOf(WorkerOf(ws[n], f.k)).value.now;
      t <= ws[n].now && forall i :: 0 <= i < |Writes(ws, steps, f, n)| ==> Writes(ws, steps, f, n)[i] <= t
  {
    hide Apply, Enabled;
    if n > 0 {
      StampsAndWrites(ws, steps, f, n - 1);
      ClockAfter(ws[n - 1], steps[n - 1]);
      if Rotates(ws[n - 1], steps[n - 1], f) {
        WriteEndsPass(ws[n - 1], steps[n - 1], f);
      } else if PassOf(WorkerOf(ws[n], f.k)).Some? {
        PassAfter(ws[n - 1], steps[n - 1], f.k);
      }
    }
  }

  /** Two writes may follow each other closely, if the first was slow; any three span at least the gap. */
  lemma WritesSpaced(ws: seq<World>, steps: seq<Step>, f: Fixed, i: nat)
    requires CalmRun(ws, steps, f) && Steady(ws[0], f, None) && WorkerOf(ws[0], f.k).Idle?
    requires i + 2 < |Writes(ws, steps, f, |steps|)|
    ensures Writes(ws, steps, f, |steps|)[i + 2] - Writes(ws, steps, f, |steps|)[i] >= Gap(f.spec)
  {
    hide Apply, Enabled, Calm, Steady, Rotations, Writes, Gap;
    RotationsSpaced(ws, steps, f, |steps|);
    StampsAndWrites(ws, steps, f, |steps|);
    var stamps := Rotations(ws, steps, f, |steps|);
    assert stamps[(i + 1) + 1] - stamps[i + 1] >= Gap(f.spec);
  }

  // ---------------------------------------------------------------- the schedule

  /**
   The schedule never falls off: a successful pass over an accepted spec always asks to be woken
   again, the wake-up finds rotation due on the stored (rounded-down) expiry, and after a rotation
   it comes with the whole renewal margin of the requested lifetime left.
   */
  lemma RotationReschedules(pass: Pass, kubeconfig: Bytes, base: Secret, wake: Nanos)
    requires LifetimeAccepted(pass.item.spec)
    requires wake >= pass.now + RequeueAfter(pass.now, RotationReport(pass, kubeconfig).nextRotation)
    ensures RequeueAfter(pass.now, RotationReport(pass, kubeconfig).nextRotation) > 0
    ensures
      var s := Rewrite(base, pass.item, pass.clusterName, kubeconfig, pass.now);
      CurrentState(s, TargetSecretKey(pass.item.spec), SpecHash(pass.item, pass.clusterName), wake,
                   pass.item.spec.renewBefore).None?
    ensures pass.item.spec.renewBefore.None? ==>
              RequeueAfter(pass.now, RotationReport(pass, kubeconfig).nextRotation) == pass.item.spec.ttl
    ensures pass.item.spec.renewBefore.Some? ==>
              RequeueAfter(pass.now, RotationReport(pass, kubeconfig).nextRotation)
                == pass.item.spec.ttl - pass.item.spec.renewBefore.value
  {
    var s := Rewrite(base, pass.item, pass.clusterName, kubeconfig, pass.now);
    assert Annotation(s, EXPIRATION_ANNOTATION) == Stamp(FloorSecond(pass.now + pass.item.spec.ttl));
    hide Rewrite;
  }

  /**
   After a reuse the wake-up comes at the very instant at which the Secret, as stamped, stops being current:
   renewBefore ahead of its expiry.
   */
  lemma ReuseReschedules(s: Secret, key: string, specHash: Digest, now: Nanos, renewBefore: Option<Nanos>, wake: Nanos)
    requires CurrentState(s, key, specHash, now, renewBefore).Some?
    requires wake >= now + RequeueAfter(now, Some(CurrentState(s, key, specHash, now, renewBefore).value.nextRotation))
    ensures RequeueAfter(now, Some(CurrentState(s, key, specHash, now, renewBefore).value.nextRotation)) > 0
    ensures CurrentState(s, key, specHash, wake, renewBefore).None?
    ensures
      var delay := RequeueAfter(now, Some(CurrentState(s, key, specHash, now, renewBefore).value.nextRotation));
      && CurrentState(s, key, specHash, now + delay - 1, renewBefore).Some?
      && Annotation(s, EXPIRATION_ANNOTATION).Stamp?
      && var left := Annotation(s, EXPIRATION_ANNOTATION).at - (now + delay);
      && (renewBefore.None? ==> left == 0)
      && (renewBefore.Some? && renewBefore.value > 0 ==> left == renewBefore.value)
  {
  }

  /** The Secret holds, under this key, a kubeconfig that matches its marks, was asked for with these inputs and expires at e. */
  predicate Credential(s: Secret, key: string, specHash: Digest, e: Nanos) {
    && key in s.data && s.data[key] != []
    && SPEC_HASH_ANNOTATION in s.annotations && s.annotations[SPEC_HASH_ANNOTATION] == Hex(specHash)
    && HASH_ANNOTATION in s.annotations && s.annotations[HASH_ANNOTATION] == Hex(Sha256(RawBytes(s.data[key])))
    && EXPIRATION_ANNOTATION in s.annotations && s.annotations[EXPIRATION_ANNOTATION] == Stamp(e)
    && (LAST_ROTATION_ANNOTATION in s.annotations ==>
          s.annotations[LAST_ROTATION_ANNOTATION].Stamp? || s.annotations[LAST_ROTATION_ANNOTATION] == Text(""))
  }

  /**
   currentKubeconfigSecretState, for every Secret there can be: it is current exactly while it holds a credential
   with more than renewBefore of its lifetime left, and then the state read off it is that of the credential.
   */
  lemma CurrentIff(s: Secret, key: string, specHash: Digest, now: Nanos, renewBefore: Option<Nanos>)
    requires renewBefore.Some? ==> renewBefore.value > 0
    ensures
      var left := if renewBefore.Some? then renewBefore.value else 0;
      && (CurrentState(s, key, specHash, now, renewBefore).Some? <==>
            exists e :: Credential(s, key, specHash, e) && e - now > left)
      && (CurrentState(s, key, specHash, now, renewBefore).Some? ==>
            var c := CurrentState(s, key, specHash, now, renewBefore).value;
            && Credential(s, key, specHash, c.expiration) && c.hash == Sha256(RawBytes(s.data[key]))
            && c.nextRotation == c.expiration - left
            && c.lastRotation == match AnnotationTime(s, LAST_ROTATION_ANNOTATION) case At(t) => Some(t) case _ => None)
  {
    var left := if renewBefore.Some? then renewBefore.value else 0;
    if e :| Credential(s, key, specHash, e) && e - now > left {
      assert AnnotationTime(s, EXPIRATION_ANNOTATION) == At(e);
    }
    if CurrentState(s, key, specHash, now, renewBefore).Some? {
      assert Credential(s, key, specHash, CurrentState(s, key, specHash, now, renewBefore).value.expiration);
    }
  }

  /** The Secret still carries the four marks of this rewrite. */
  predicate StillMarked(s: Secret, item: Export, clusterName: string, kubeconfig: Bytes, now: Nanos) {
    && Annotation(s, SPEC_HASH_ANNOTATION) == Hex(SpecHash(item, clusterName))
    && Annotation(s, HASH_ANNOTATION) == Hex(Hash(kubeconfig))
    && Annotation(s, EXPIRATION_ANNOTATION) == Stamp(FloorSecond(now + item.spec.ttl))
    && Annotation(s, LAST_ROTATION_ANNOTATION) == Stamp(FloorSecond(now))
  }

  /**
   What a later pass, over an export and a cluster that may have changed, makes of a Secret whose data may have
   been edited since its rewrite: it is current exactly if the kubeconfig is still there and not empty, the
   same credential is asked for, and rotation is not due.  Any disturbance of these rotates at once.
   */
  lemma MarkedIsCurrentIff(s: Secret, item: Export, clusterName: string, kubeconfig: Bytes, now: Nanos,
                           later: Export, laterName: string, t: Nanos)
    requires StillMarked(s, item, clusterName, kubeconfig, now)
    ensures CurrentState(s, TargetSecretKey(later.spec), SpecHash(later, laterName), t, later.spec.renewBefore).Some? <==>
      && kubeconfig != [] && Datum(s, TargetSecretKey(later.spec)) == kubeconfig
      && Request(later, laterName) == Request(item, clusterName)
      && !RotationDue(t, FloorSecond(now + item.spec.ttl), later.spec.renewBefore)
  {
  }

  /**
   A Secret just rewritten is current at time t exactly when the kubeconfig is not empty and rotation is
   not yet due on the rounded-down expiry.  So an empty kubeconfig is never reused.
   */
  lemma RewrittenIsCurrentIff(base: Secret, item: Export, clusterName: string, kubeconfig: Bytes, now: Nanos, t: Nanos)
    ensures
      var s := Rewrite(base, item, clusterName, kubeconfig, now);
      CurrentState(s, TargetSecretKey(item.spec), SpecHash(item, clusterName), t, item.spec.renewBefore).Some? <==>
        kubeconfig != [] && !RotationDue(t, FloorSecond(now + item.spec.ttl), item.spec.renewBefore)
  {
    var s := Rewrite(base, item, clusterName, kubeconfig, now);
    RewriteIsMarked(base, item, clusterName, kubeconfig, now);
    MarkedIsCurrentIff(s, item, clusterName, kubeconfig, now, item, clusterName, t);
    hide Rewrite, CurrentState;
  }

  lemma RewriteIsMarked(base: Secret, item: Export, clusterName: string, kubeconfig: Bytes, now: Nanos)
    ensures
      var s := Rewrite(base, item, clusterName, kubeconfig, now);
      StillMarked(s, item, clusterName, kubeconfig, now) && Datum(s, TargetSecretKey(item.spec)) == kubeconfig
  {
    hide IsOwnedSecret;
  }
}
