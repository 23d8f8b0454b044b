/**
 The rotation bounds cannot be improved: runs from an initial world that attain the gap, and the
 rotation loops that follow where there is no gap or no kubeconfig.
 */
module ExportRateExact {
  import opened Kube
  import opened KubeconfigExport
  import opened ExportModel
  import opened ExportSteps
  import opened ExportRuns
  import opened ExportRate

  /** An export that a pass can rotate, with the spec and cluster name fixed by f. */
  predicate Rotatable(w: World, f: Fixed) {
    Ready(w, f.k) && Settled(w.exports[f.k], f) && PassFor(w, f.k).clusterName == f.clusterName
  }

  /** Nothing is due but what the target Secret says. */
  lemma SettledReuses(w: World, f: Fixed, verdict: Verdict)
    requires Rotatable(w, f)
    ensures
      var item := w.exports[f.k];
      && CleanedSecrets(w.secrets, item) == w.secrets && !Occupied(item, w.secrets) && Home(item, w.secrets) == TargetOf(f)
      && Reuses(w, f.k, verdict) == Reusable(w, PassFor(w, f.k), verdict)
  {
    hide SpecAccepted, CurrentState, IsOwnedSecret;
  }

  lemma {:induction false} RotationsPrefix(ws0: seq<World>, steps0: seq<Step>, ws: seq<World>, steps: seq<Step>, f: Fixed, n: nat)
    requires n <= |steps0| <= |ws0| && |steps| <= |ws| && ws0 <= ws && steps0 <= steps
    ensures Rotations(ws, steps, f, n) == Rotations(ws0, steps0, f, n)
    decreases n
  {
    if n > 0 {
      RotationsPrefix(ws0, steps0, ws, steps, f, n - 1);
    }
  }

  /** No write of this export among steps i to n - 1. */
  lemma {:induction false} RotationsQuiet(ws: seq<World>, steps: seq<Step>, f: Fixed, i: nat, n: nat)
    requires i <= n <= |steps| <= |ws| && forall j :: i <= j < n ==> !steps[j].WriteSecret?
    ensures Rotations(ws, steps, f, n) == Rotations(ws, steps, f, i)
    decreases n
  {
    if i < n {
      RotationsQuiet(ws, steps, f, i, n - 1);
    }
  }

  /** One more rotation, at the time it is, wherever the Secret there is not current. */
  lemma RotateAgain(ws0: seq<World>, steps0: seq<Step>, f: Fixed, verdict: Verdict, kubeconfig: Bytes)
    returns (ws: seq<World>, steps: seq<Step>)
    requires IsRun(ws0, steps0) && Rotatable(ws0[|steps0|], f) && Reusable(ws0[|steps0|], PassFor(ws0[|steps0|], f.k), verdict).None?
    ensures IsRun(ws, steps) && ws0 <= ws && steps == steps0 + RotatePath(f.k, verdict, kubeconfig)
    ensures Rotations(ws, steps, f, |steps|) == Rotations(ws0, steps0, f, |steps0|) + [ws0[|steps0|].now]
    ensures Rotatable(ws[|steps|], f) && ws[|steps|].now == ws0[|steps0|].now
    ensures Rewritten(ws0[|steps0|], ws[|steps|], f, kubeconfig)
  {
    hide Apply, Enabled, Reusable, Rotations, LookupKey, SpecTarget, Rewrite, CommittedStatus, RotationReport, SpecAccepted, CleanedSecrets, Reuses;
    var w, n := ws0[|steps0|], |steps0|;
    SettledReuses(w, f, verdict);
    ws, steps := RotateRun(ws0, steps0, f.k, verdict, kubeconfig);
    StillRotatable(w, f, kubeconfig);
    RotationsPrefix(ws0, steps0, ws, steps, f, n);
    RotationsQuiet(ws, steps, f, n, n + 5);
    WriteCounts(ws, steps, f, n + 5);
    RotationsQuiet(ws, steps, f, n + 6, n + 7);
  }

  lemma WriteCounts(ws: seq<World>, steps: seq<Step>, f: Fixed, i: nat)
    requires i < |steps| <= |ws| && steps[i] == WriteSecret(f.k, Done) && f.k in ws[i].workers && ws[i].workers[f.k].Writing?
    ensures Rotations(ws, steps, f, i + 1) == Rotations(ws, steps, f, i) + [ws[i].workers[f.k].pass.now]
  {
  }

  /** The target Secret has just been rewritten by a pass over this export at the time of w. */
  ghost predicate Rewritten(w: World, v: World, f: Fixed, kubeconfig: Bytes)
    requires f.k in w.exports
  {
    var pass := PassFor(w, f.k);
    exists base :: TargetOf(f) in v.secrets
      && v.secrets[TargetOf(f)] == Rewrite(base, pass.item, pass.clusterName, kubeconfig, pass.now)
  }

  lemma StillRotatable(w: World, f: Fixed, kubeconfig: Bytes)
    requires Rotatable(w, f)
    ensures
      var v := Reported(w, f.k, RotationReport(PassFor(w, f.k), kubeconfig)).(secrets := RotatedSecrets(w, f.k, kubeconfig));
      Rotatable(v, f) && Rewritten(w, v, f, kubeconfig)
  {
    hide SpecAccepted, CurrentState, Reuses, Reusable, Rewrite, CleanedSecrets, CommittedStatus, Settled;
    SettledReuses(w, f, Usable);
    CommitSettles(w.exports[f.k], RotationReport(PassFor(w, f.k), kubeconfig), f);
    StillSettled(w.exports[f.k], RotationReport(PassFor(w, f.k), kubeconfig), f);
  }

  lemma StillSettled(item: Export, r: Report, f: Fixed)
    requires Settled(item, f)
    ensures item.(status := CommittedStatus(item, r)).spec == f.spec
  {
  }

  /** What was rewritten at one time is reused at another exactly if it is not empty, not stale and not due. */
  lemma FreshIsReusedIff(w: World, v: World, f: Fixed, kubeconfig: Bytes, verdict: Verdict)
    requires Rotatable(w, f) && Rotatable(v, f) && Rewritten(w, v, f, kubeconfig)
    ensures Reusable(v, PassFor(v, f.k), verdict).Some? <==>
      kubeconfig != [] && !verdict.Stale? && !RotationDue(v.now, FloorSecond(w.now + f.spec.ttl), f.spec.renewBefore)
  {
    hide CurrentState, Rewrite, RotationDue, SpecAccepted;
    var pass, x := PassFor(w, f.k), TargetOf(f);
    var base :| x in v.secrets && v.secrets[x] == Rewrite(base, pass.item, pass.clusterName, kubeconfig, pass.now);
    RewrittenIsCurrentIff(base, pass.item, pass.clusterName, kubeconfig, w.now, v.now);
    assert SpecHash(v.exports[f.k], f.clusterName) == SpecHash(pass.item, f.clusterName);
    SettledTarget(v.exports[f.k], f);
  }

  // ---------------------------------------------------------------- calm runs

  predicate CalmOwn(s: Step, k: Key) {
    Actor(s) == Some(k) && (s.Lookup? ==> !s.verdict.Stale?) && (s.Generate? ==> s.issued != Some([]))
  }

  lemma OwnCalm(w: World, s: Step, f: Fixed)
    requires Enabled(w, s) && CalmOwn(s, f.k) && NamesCluster(w, f)
    ensures Calm(w, s, f) && NamesCluster(Apply(w, s), f)
  {
    hide Begun, Resolved, Cleaned, LookedUp, Generated, Written, Committed, Removed;
  }

  lemma {:induction false} CalmExtends(ws: seq<World>, steps: seq<Step>, f: Fixed, i: nat, n: nat)
    requires IsRun(ws, steps) && i <= n <= |steps| && NamesCluster(ws[i], f)
    requires forall j :: i <= j < n ==> CalmOwn(steps[j], f.k)
    ensures NamesCluster(ws[n], f)
    ensures forall j :: i <= j < n ==> Enabled(ws[j], steps[j]) && Calm(ws[j], steps[j], f)
    decreases n
  {
    hide Apply, Enabled, Calm, CalmOwn, NamesCluster;
    if i < n {
      CalmExtends(ws, steps, f, i, n - 1);
      OwnCalm(ws[n - 1], steps[n - 1], f);
    }
  }

  /** Another rotation of a calm run. */
  lemma CalmRotation(ws0: seq<World>, steps0: seq<Step>, f: Fixed, kubeconfig: Bytes) returns (ws: seq<World>, steps: seq<Step>)
    requires CalmRun(ws0, steps0, f) && Rotatable(ws0[|steps0|], f) && kubeconfig != []
    requires Reusable(ws0[|steps0|], PassFor(ws0[|steps0|], f.k), Usable).None?
    ensures CalmRun(ws, steps, f) && ws0 <= ws
    ensures Rotations(ws, steps, f, |steps|) == Rotations(ws0, steps0, f, |steps0|) + [ws0[|steps0|].now]
    ensures Rotatable(ws[|steps|], f) && ws[|steps|].now == ws0[|steps0|].now
    ensures Rewritten(ws0[|steps0|], ws[|steps|], f, kubeconfig)
  {
    hide Apply, Enabled, Calm, Reusable, Rotations, Rewritten;
    ws, steps := RotateAgain(ws0, steps0, f, Usable, kubeconfig);
    assert NamesCluster(ws0[|steps0|], f);
    hide Rotatable, NamesCluster;
    CalmExtends(ws, steps, f, |steps0|, |steps|);
  }

  /** Time passes. */
  lemma CalmTick(ws0: seq<World>, steps0: seq<Step>, f: Fixed, to: Nanos) returns (ws: seq<World>, steps: seq<Step>)
    requires CalmRun(ws0, steps0, f) && Rotatable(ws0[|steps0|], f) && ws0[|steps0|].now <= to
    ensures CalmRun(ws, steps, f) && ws0 <= ws && ws[|steps|] == ws0[|steps0|].(now := to)
    ensures Rotations(ws, steps, f, |steps|) == Rotations(ws0, steps0, f, |steps0|)
  {
    var w := ws0[|steps0|];
    TickIsCalm(w, f, to);
    hide Apply, Enabled, Calm, Rotatable;
    ws, steps := Grow(ws0, steps0, Tick(to), w.(now := to));
    RotationsPrefix(ws0, steps0, ws, steps, f, |steps0|);
  }

  lemma TickIsCalm(w: World, f: Fixed, to: Nanos)
    requires Rotatable(w, f) && w.now <= to
    ensures Enabled(w, Tick(to)) && Apply(w, Tick(to)) == w.(now := to) && Calm(w, Tick(to), f)
  {
  }

  /** What f must be for an export of it to exist. */
  predicate Possible(f: Fixed) {
    f.k.namespace != "" && f.k.name != "" && SpecAccepted(f.spec) && f.clusterName != ""
  }

  function StartOf(f: Fixed, uid: string, now: Nanos): World {
    Created(f.k, uid, f.spec, f.clusterName, now, map[])
  }

  lemma StartIsSteady(f: Fixed, uid: string, now: Nanos)
    requires Possible(f) && uid != ""
    ensures
      var w := StartOf(f, uid, now);
      && Rotatable(w, f) && Steady(w, f, None) && WorkerOf(w, f.k).Idle? && CalmRun([w], [], f)
      && Reusable(w, PassFor(w, f.k), Usable).None? && w.now == now
  {
    hide SpecAccepted, CurrentState, Apply, Enabled, Calm;
  }

  /** Reachable from an initial world in which no export exists. */
  ghost predicate Reachable(w: World) {
    exists ws, steps :: IsRun(ws, steps) && Init(ws[0]) && ws[|steps|] == w
  }

  lemma StartIsReachable(f: Fixed, uid: string, now: Nanos)
    requires Possible(f) && uid != ""
    ensures Reachable(StartOf(f, uid, now))
  {
    hide Apply, Enabled, SpecAccepted;
    var ws, steps := CreateRun(f.k, uid, f.spec, f.clusterName, now, map[]);
  }

  /** The instant within a second at which rounding down costs most. */
  function WorstInstant(spec: Spec): Nanos {
    (SECOND - 1 - spec.ttl) % SECOND
  }

  lemma WorstIsDueAfterGap(spec: Spec, t: Nanos)
    ensures var start := WorstInstant(spec);
            RotationDue(t, FloorSecond(start + spec.ttl), spec.renewBefore) <==> t >= start + Gap(spec)
  {
    var start := WorstInstant(spec);
    assert (start + spec.ttl) % SECOND == SECOND - 1;
  }

  /**
   The gap is attained: for every accepted spec with a positive gap, a calm run from a reachable state
   holds two rotations exactly the gap apart.
   */
  lemma GapIsAttained(f: Fixed, uid: string, kubeconfig: Bytes) returns (ws: seq<World>, steps: seq<Step>)
    requires Possible(f) && uid != "" && kubeconfig != [] && Gap(f.spec) > 0
    ensures CalmRun(ws, steps, f) && Reachable(ws[0]) && Steady(ws[0], f, None) && WorkerOf(ws[0], f.k).Idle?
    ensures Rotations(ws, steps, f, |steps|) == [WorstInstant(f.spec), WorstInstant(f.spec) + Gap(f.spec)]
  {
    hide Apply, Enabled, Calm, Reusable, Rotatable, Rotations, Steady, Rewritten, RotationDue, Reachable, Gap, StartOf;
    var start := WorstInstant(f.spec);
    var w := StartOf(f, uid, start);
    StartIsReachable(f, uid, start);
    StartIsSteady(f, uid, start);
    ws, steps := CalmRotation([w], [], f, kubeconfig);
    var v := ws[|steps|];
    NoRotationsYet(w, f);
    ws, steps := CalmTick(ws, steps, f, start + Gap(f.spec));
    StillRotatableLater(w, v, f, start + Gap(f.spec), kubeconfig);
    WorstIsDueAfterGap(f.spec, start + Gap(f.spec));
    FreshIsReusedIff(w, ws[|steps|], f, kubeconfig, Usable);
    ws, steps := CalmRotation(ws, steps, f, kubeconfig);
  }

  lemma NoRotationsYet(w: World, f: Fixed)
    ensures Rotations([w], [], f, 0) == []
  {
  }

  lemma StillRotatableLater(w: World, v: World, f: Fixed, to: Nanos, kubeconfig: Bytes)
    requires Rotatable(w, f) && Rotatable(v, f) && Rewritten(w, v, f, kubeconfig)
    ensures Rotatable(v.(now := to), f) && Rewritten(w, v.(now := to), f, kubeconfig)
  {
    hide SpecAccepted, Rewrite, Settled;
  }

  // ---------------------------------------------------------------- without a gap

  function Repeat(t: Nanos, m: nat): seq<Nanos> {
    seq(m, i => t)
  }

  /**
   Without a gap the Secret watch does drive a loop: for every accepted spec whose ttl leaves less than a
   second beside renewBefore, a calm run holds any number of rotations at one instant.
   */
  lemma {:induction false} RotationLoop(f: Fixed, uid: string, kubeconfig: Bytes, m: nat) returns (ws: seq<World>, steps: seq<Step>)
    requires Possible(f) && uid != "" && kubeconfig != [] && Gap(f.spec) <= 0
    ensures CalmRun(ws, steps, f) && Reachable(ws[0]) && Steady(ws[0], f, None) && WorkerOf(ws[0], f.k).Idle?
    ensures ws[0].now == ws[|steps|].now == WorstInstant(f.spec) && Rotatable(ws[|steps|], f)
    ensures Reusable(ws[|steps|], PassFor(ws[|steps|], f.k), Usable).None?
    ensures Rotations(ws, steps, f, |steps|) == Repeat(WorstInstant(f.spec), m)
  {
    hide Apply, Enabled, Calm, Reusable, Rotatable, Rotations, Steady, Rewritten, RotationDue, Reachable, Gap, StartOf;
    var start := WorstInstant(f.spec);
    if m == 0 {
      var w := StartOf(f, uid, start);
      StartIsReachable(f, uid, start);
      StartIsSteady(f, uid, start);
      NoRotationsYet(w, f);
      ws, steps := [w], [];
    } else {
      var ws0, steps0 := RotationLoop(f, uid, kubeconfig, m - 1);
      ws, steps := CalmRotation(ws0, steps0, f, kubeconfig);
      WorstIsDueAfterGap(f.spec, start);
      FreshIsReusedIff(ws0[|steps0|], ws[|steps|], f, kubeconfig, Usable);
      assert Repeat(start, m - 1) + [start] == Repeat(start, m);
    }
  }

  /** The run starts idle, with no rotation behind it, and no time passes. */
  ghost predicate WithinInstant(ws: seq<World>, f: Fixed) {
    ws != [] && Steady(ws[0], f, None) && WorkerOf(ws[0], f.k).Idle? && ws[|ws| - 1].now == ws[0].now
  }

  /** However often an export's passes run within one instant, it rotates at most m times. */
  ghost predicate RotatesAtMost(f: Fixed, m: nat) {
    forall ws, steps :: CalmRun(ws, steps, f) && WithinInstant(ws, f) ==>
      |Rotations(ws, steps, f, |steps|)| <= m
  }

  /** The rate is bounded exactly when the gap is positive; then one instant holds one rotation at most. */
  lemma BoundedIffGap(f: Fixed)
    requires Possible(f)
    ensures (exists m: nat :: RotatesAtMost(f, m)) <==> Gap(f.spec) > 0
    ensures Gap(f.spec) > 0 <==> RotatesAtMost(f, 1)
  {
    hide Apply, Enabled, Calm, Reusable, Rotatable, Rotations, Steady, Reachable, Possible;
    if Gap(f.spec) > 0 {
      forall ws, steps | CalmRun(ws, steps, f) && WithinInstant(ws, f)
        ensures |Rotations(ws, steps, f, |steps|)| <= 1
      {
        RotationRate(ws, steps, f);
      }
      assert RotatesAtMost(f, 1);
    } else {
      forall m: nat ensures !RotatesAtMost(f, m) {
        var ws, steps := RotationLoop(f, "uid", [0], m + 1);
      }
    }
  }

  // ---------------------------------------------------------------- without a kubeconfig

  /**
   An empty kubeconfig is never current: for every accepted spec, whatever its gap, a run from a reachable
   state holds any number of passes that rotate at one instant, with the next one about to do so again.
   */
  lemma {:induction false} EmptyKubeconfigLoop(f: Fixed, uid: string, now: Nanos, m: nat) returns (ws: seq<World>, steps: seq<Step>)
    requires Possible(f) && uid != ""
    ensures IsRun(ws, steps) && Reachable(ws[0]) && ws[0].now == ws[|steps|].now == now && Rotatable(ws[|steps|], f)
    ensures Reusable(ws[|steps|], PassFor(ws[|steps|], f.k), Usable).None?
    ensures Rotations(ws, steps, f, |steps|) == Repeat(now, m)
  {
    hide Apply, Enabled, Reusable, Rotatable, Rotations, Rewritten, RotationDue, Reachable, StartOf, Steady;
    if m == 0 {
      var w := StartOf(f, uid, now);
      StartIsReachable(f, uid, now);
      StartIsSteady(f, uid, now);
      NoRotationsYet(w, f);
      ws, steps := [w], [];
    } else {
      var ws0, steps0 := EmptyKubeconfigLoop(f, uid, now, m - 1);
      ws, steps := RotateAgain(ws0, steps0, f, Usable, []);
      FreshIsReusedIff(ws0[|steps0|], ws[|steps|], f, [], Usable);
      assert Repeat(now, m - 1) + [now] == Repeat(now, m);
    }
  }
}
