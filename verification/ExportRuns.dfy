/**
 Uninterrupted passes of the export machine, from any state that is ready for one.  Witness runs are
 put together from these, starting in an initial world.
 */
module ExportRuns {
  import opened Kube
  import opened KubeconfigExport
  import opened ExportModel
  import opened ExportSteps

  /** The pass that Reconcile makes over the export as it is stored in w. */
  function PassFor(w: World, k: Key): Pass
    requires k in w.exports
  {
    var item := w.exports[k];
    var ck := Key(k.namespace, item.spec.clusterRef);
    var cluster := if ck in w.clusters then w.clusters[ck] else Cluster("", "");
    Pass(item, ClusterName(ck.name, cluster), cluster.connectionRef, w.now)
  }

  /** The Secrets once the previous target has been cleaned up. */
  function CleanedSecrets(secrets: map<Key, Secret>, item: Export): map<Key, Secret> {
    if CleanupDeletes(item, secrets) then secrets - {PreviousKey(item)} else secrets
  }

  /** Where a pass over this item finds, or puts, its kubeconfig. */
  function Home(item: Export, secrets: map<Key, Secret>): Key {
    if LookupKey(item) in CleanedSecrets(secrets, item) then LookupKey(item) else SpecTarget(item)
  }

  function BaseOf(item: Export, secrets: map<Key, Secret>): Option<Found> {
    var cleaned := CleanedSecrets(secrets, item);
    if LookupKey(item) in cleaned then Some(Found(LookupKey(item), cleaned[LookupKey(item)])) else None
  }

  /** The recorded Secret is gone or about to go, and something else already sits at the spec target. */
  predicate Occupied(item: Export, secrets: map<Key, Secret>) {
    && LookupKey(item) != SpecTarget(item)
    && LookupKey(item) !in CleanedSecrets(secrets, item)
    && SpecTarget(item) in secrets
  }

  /** What the lookup of an uninterrupted pass would reuse. */
  function Reuses(w: World, k: Key, verdict: Verdict): Option<Current>
    requires k in w.exports
  {
    Reusable(w.(secrets := CleanedSecrets(w.secrets, w.exports[k])), PassFor(w, k), verdict)
  }

  /** Nothing stands in the way of a pass over this export. */
  predicate Ready(w: World, k: Key) {
    && k in w.exports && WorkerOf(w, k).Idle? && w.exports[k].finalizer && !w.exports[k].deleting
    && SpecAccepted(w.exports[k].spec)
    && Key(k.namespace, w.exports[k].spec.clusterRef) in w.clusters
    && Key(k.namespace, PassFor(w, k).connection) in w.connections
  }

  function LookPath(k: Key): seq<Step> {
    [Begin(k, true), Resolve(k, true), Cleanup(k, Done)]
  }

  /** The steps of a pass that reuses the stored kubeconfig. */
  function ReusePath(k: Key, verdict: Verdict): seq<Step> {
    LookPath(k) + [Lookup(k, true, verdict), Commit(k, true)]
  }

  function WritePath(k: Key, verdict: Verdict, kubeconfig: Bytes): seq<Step> {
    LookPath(k) + [Lookup(k, true, verdict), Generate(k, Some(kubeconfig)), WriteSecret(k, Done)]
  }

  /** The steps of a pass that rotates it. */
  function RotatePath(k: Key, verdict: Verdict, kubeconfig: Bytes): seq<Step> {
    WritePath(k, verdict, kubeconfig) + [Commit(k, true)]
  }

  /** The worker is at work in states i + 1 to n. */
  ghost predicate Busy(ws: seq<World>, k: Key, i: nat, n: nat)
    requires n < |ws|
  {
    forall j :: i < j <= n ==> !WorkerOf(ws[j], k).Idle?
  }

  /** One more step, by what the operation it stands for does. */
  lemma Grow(ws0: seq<World>, steps0: seq<Step>, s: Step, v: World) returns (ws: seq<World>, steps: seq<Step>)
    requires IsRun(ws0, steps0) && Enabled(ws0[|steps0|], s) && v == Apply(ws0[|steps0|], s)
    ensures IsRun(ws, steps) && ws == ws0 + [v] && steps == steps0 + [s]
  {
    hide Apply, Enabled;
    ws, steps := Extend(ws0, steps0, s, v);
  }

  /** The worlds of a pass up to its lookup. */
  function Looks(w: World, k: Key): World
    requires k in w.exports
  {
    Goto(w, k, Looking(PassFor(w, k))).(secrets := CleanedSecrets(w.secrets, w.exports[k]))
  }

  lemma LookRun(ws0: seq<World>, steps0: seq<Step>, k: Key) returns (ws: seq<World>, steps: seq<Step>)
    requires IsRun(ws0, steps0) && Ready(ws0[|steps0|], k)
    ensures IsRun(ws, steps) && ws0 <= ws && steps == steps0 + LookPath(k)
    ensures ws[|steps|] == Looks(ws0[|steps0|], k) && Busy(ws, k, |steps0|, |steps|)
  {
    hide Apply, Enabled, SpecAccepted, CleanupDeletes;
    var w := ws0[|steps0|];
    var item, pass := w.exports[k], PassFor(w, k);
    var w1, w2 := Goto(w, k, Resolving(item)), Goto(w, k, Cleaning(pass));
    StepBegin(w, k, true);
    ws, steps := Grow(ws0, steps0, Begin(k, true), w1);
    StepResolve(w1, k, true);
    assert w2 == Goto(w1, k, Cleaning(pass));
    ws, steps := Grow(ws, steps, Resolve(k, true), w2);
    StepCleanup(w2, k, Done);
    assert w2.workers[k := Looking(pass)] == w.workers[k := Looking(pass)];
    ws, steps := Grow(ws, steps, Cleanup(k, Done), Looks(w, k));
  }

  function ReuseReport(w: World, k: Key, verdict: Verdict): Report
    requires k in w.exports && Reuses(w, k, verdict).Some?
  {
    var pass, c := PassFor(w, k), Reuses(w, k, verdict).value;
    Success(pass.clusterName, pass.connection, c.hash, c.expiration, c.lastRotation, c.nextRotation)
  }

  function Reported(w: World, k: Key, r: Report): World
    requires k in w.exports
  {
    var item := w.exports[k];
    Goto(w, k, Idle).(exports := w.exports[k := item.(status := CommittedStatus(item, r))])
  }

  /** A pass over a Secret that is still current runs through, and leaves the Secrets as cleaned. */
  lemma ReuseRun(ws0: seq<World>, steps0: seq<Step>, k: Key, verdict: Verdict) returns (ws: seq<World>, steps: seq<Step>)
    requires IsRun(ws0, steps0) && Ready(ws0[|steps0|], k) && Reuses(ws0[|steps0|], k, verdict).Some?
    ensures IsRun(ws, steps) && ws0 <= ws && steps == steps0 + ReusePath(k, verdict)
    ensures Busy(ws, k, |steps0|, |steps| - 1) && ws[|steps| - 1].workers[k] == Reporting(ReuseReport(ws0[|steps0|], k, verdict))
    ensures ws[|steps| - 1].exports == ws0[|steps0|].exports
    ensures var w := ws0[|steps0|];
            ws[|steps|] == Reported(w, k, ReuseReport(w, k, verdict)).(secrets := CleanedSecrets(w.secrets, w.exports[k]))
  {
    hide Apply, Enabled, SpecAccepted, CleanupDeletes, CommittedStatus;
    var w := ws0[|steps0|];
    var r := ReuseReport(w, k, verdict);
    ws, steps := LookRun(ws0, steps0, k);
    LookupReuses(w, k, verdict);
    var w4 := Goto(Looks(w, k), k, Reporting(r));
    ws, steps := Grow(ws, steps, Lookup(k, true, verdict), w4);
    StepCommit(w4, k, true);
    var w5 := Reported(w, k, r).(secrets := CleanedSecrets(w.secrets, w.exports[k]));
    assert w4.workers[k := Idle] == w5.workers;
    ws, steps := Grow(ws, steps, Commit(k, true), w5);
    assert steps == steps0 + ReusePath(k, verdict);
  }

  lemma LookupReuses(w: World, k: Key, verdict: Verdict)
    requires k in w.exports && Reuses(w, k, verdict).Some?
    ensures Enabled(Looks(w, k), Lookup(k, true, verdict))
    ensures Apply(Looks(w, k), Lookup(k, true, verdict)) == Goto(Looks(w, k), k, Reporting(ReuseReport(w, k, verdict)))
  {
    hide Apply, Enabled, CleanupDeletes;
    StepLookup(Looks(w, k), k, true, verdict);
    SameReusable(w, k, verdict);
    hide Reusable;
  }

  lemma SameReusable(w: World, k: Key, verdict: Verdict)
    requires k in w.exports
    ensures Reusable(Looks(w, k), PassFor(w, k), verdict) == Reuses(w, k, verdict)
  {
    hide CurrentState, CleanupDeletes;
  }

  /** The Secrets after a rotation. */
  function RotatedSecrets(w: World, k: Key, kubeconfig: Bytes): map<Key, Secret>
    requires k in w.exports
  {
    var pass := PassFor(w, k);
    var base := BaseOf(pass.item, w.secrets);
    CleanedSecrets(w.secrets, pass.item)[Home(pass.item, w.secrets) :=
      Rewrite(if base.Some? then base.value.secret else NEW_SECRET, pass.item, pass.clusterName, kubeconfig, pass.now)]
  }

  /** A pass over a Secret that is not current obtains a kubeconfig and, unless the name is taken, writes it. */
  lemma WriteRun(ws0: seq<World>, steps0: seq<Step>, k: Key, verdict: Verdict, kubeconfig: Bytes)
    returns (ws: seq<World>, steps: seq<Step>)
    requires IsRun(ws0, steps0) && Ready(ws0[|steps0|], k) && Reuses(ws0[|steps0|], k, verdict).None?
    requires !Occupied(ws0[|steps0|].exports[k], ws0[|steps0|].secrets)
    ensures IsRun(ws, steps) && ws0 <= ws && steps == steps0 + WritePath(k, verdict, kubeconfig)
    ensures Busy(ws, k, |steps0|, |steps|)
    ensures ws[|steps0| + 5].workers[k] == Writing(PassFor(ws0[|steps0|], k), BaseOf(ws0[|steps0|].exports[k], ws0[|steps0|].secrets), kubeconfig)
    ensures var w := ws0[|steps0|];
            ws[|steps|] == Goto(w, k, Reporting(RotationReport(PassFor(w, k), kubeconfig)))
                             .(secrets := RotatedSecrets(w, k, kubeconfig))
  {
    hide Apply, Enabled, SpecAccepted, CleanupDeletes, Rewrite, Reusable, Reuses, RotationReport, LookupKey, SpecTarget;
    var w := ws0[|steps0|];
    var pass, base := PassFor(w, k), BaseOf(w.exports[k], w.secrets);
    ws, steps := LookRun(ws0, steps0, k);
    LookupRotates(w, k, verdict);
    var w4 := Goto(Looks(w, k), k, Generating(pass, base));
    ws, steps := Grow(ws, steps, Lookup(k, true, verdict), w4);
    StepGenerate(w4, k, Some(kubeconfig));
    var w5 := Goto(w4, k, Writing(pass, base, kubeconfig));
    ws, steps := Grow(ws, steps, Generate(k, Some(kubeconfig)), w5);
    StepWrite(w5, k, Done);
    var w6 := Goto(w, k, Reporting(RotationReport(pass, kubeconfig))).(secrets := RotatedSecrets(w, k, kubeconfig));
    assert w5.workers[k := w6.workers[k]] == w6.workers;
    ws, steps := Grow(ws, steps, WriteSecret(k, Done), w6);
    assert steps == steps0 + WritePath(k, verdict, kubeconfig);
  }

  lemma LookupRotates(w: World, k: Key, verdict: Verdict)
    requires k in w.exports && Reuses(w, k, verdict).None?
    ensures Enabled(Looks(w, k), Lookup(k, true, verdict))
    ensures Apply(Looks(w, k), Lookup(k, true, verdict))
              == Goto(Looks(w, k), k, Generating(PassFor(w, k), BaseOf(w.exports[k], w.secrets)))
  {
    hide Apply, Enabled, CleanupDeletes;
    StepLookup(Looks(w, k), k, true, verdict);
    SameReusable(w, k, verdict);
    hide Reusable;
  }

  /** And then reports it. */
  lemma RotateRun(ws0: seq<World>, steps0: seq<Step>, k: Key, verdict: Verdict, kubeconfig: Bytes)
    returns (ws: seq<World>, steps: seq<Step>)
    requires IsRun(ws0, steps0) && Ready(ws0[|steps0|], k) && Reuses(ws0[|steps0|], k, verdict).None?
    requires !Occupied(ws0[|steps0|].exports[k], ws0[|steps0|].secrets)
    ensures IsRun(ws, steps) && ws0 <= ws && steps == steps0 + RotatePath(k, verdict, kubeconfig)
    ensures Busy(ws, k, |steps0|, |steps| - 1)
    ensures ws[|steps0| + 5].workers[k] == Writing(PassFor(ws0[|steps0|], k), BaseOf(ws0[|steps0|].exports[k], ws0[|steps0|].secrets), kubeconfig)
    ensures var w := ws0[|steps0|];
            ws[|steps|] == Reported(w, k, RotationReport(PassFor(w, k), kubeconfig)).(secrets := RotatedSecrets(w, k, kubeconfig))
  {
    hide Apply, Enabled, SpecAccepted, CleanupDeletes, Rewrite, Reusable, Reuses, CommittedStatus, Occupied, RotatedSecrets;
    var w := ws0[|steps0|];
    var r := RotationReport(PassFor(w, k), kubeconfig);
    ws, steps := WriteRun(ws0, steps0, k, verdict, kubeconfig);
    var w6 := ws[|steps|];
    StepCommit(w6, k, true);
    var w7 := Reported(w, k, r).(secrets := RotatedSecrets(w, k, kubeconfig));
    assert w6.workers[k := Idle] == w7.workers;
    ws, steps := Grow(ws, steps, Commit(k, true), w7);
    assert steps == steps0 + RotatePath(k, verdict, kubeconfig);
  }

  // ---------------------------------------------------------------- from an initial world

  /** A cluster and its connection exist; there is no export yet. */
  function Fresh(k: Key, spec: Spec, clusterName: string, now: Nanos, secrets: map<Key, Secret>): World {
    World(now, map[], map[Key(k.namespace, spec.clusterRef) := Cluster(clusterName, "conn")],
          {Key(k.namespace, "conn")}, secrets, map[])
  }

  /** The same once an export has been created and finalized. */
  function Created(k: Key, uid: string, spec: Spec, clusterName: string, now: Nanos, secrets: map<Key, Secret>): World {
    Goto(Fresh(k, spec, clusterName, now, secrets), k, Idle)
      .(exports := map[k := Export(k, uid, 1, false, true, spec, EMPTY_STATUS)])
  }

  lemma CreateRun(k: Key, uid: string, spec: Spec, clusterName: string, now: Nanos, secrets: map<Key, Secret>)
    returns (ws: seq<World>, steps: seq<Step>)
    requires k.namespace != "" && k.name != "" && uid != ""
    ensures IsRun(ws, steps) && ws[0] == Fresh(k, spec, clusterName, now, secrets)
    ensures steps == [Create(k, uid, spec), Begin(k, true)]
    ensures ws[|steps|] == Created(k, uid, spec, clusterName, now, secrets)
  {
    hide SpecAccepted;
    var w0 := Fresh(k, spec, clusterName, now, secrets);
    var w1 := w0.(exports := map[k := Export(k, uid, 1, false, false, spec, EMPTY_STATUS)]);
    ws, steps := Grow([w0], [], Create(k, uid, spec), w1);
    ws, steps := Grow(ws, steps, Begin(k, true), Created(k, uid, spec, clusterName, now, secrets));
  }
}
