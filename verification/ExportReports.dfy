/**
 What an export's status says after a pass, in terms of what the pass met: whether its spec was valid, which
 cluster and connection it read and when, which Secret it looked up and what Omni answered.  Users and other
 exports may act between any two of its steps.
 */
module ExportReports {
  import opened Kube
  import opened KubeconfigExport
  import opened ExportModel
  import opened ExportSteps
  import opened ExportTruth
  import ExportRate

  /**
   What a pass has met so far: the world in which it read its dependencies and the clock, the Secret it found or
   missed, and what Omni answered.
   */
  datatype Met = Met(read: Option<World>, looked: Option<Option<Secret>>, answer: Option<Option<Bytes>>)

  function Meets(met: Met, w: World, s: Step, k: Key, item: Export): Met {
    if Actor(s) != Some(k) then met
    else
      match s
      case Resolve(_, ok) => if ok then met.(read := Some(w)) else met
      case Lookup(_, ok, _) =>
        if !ok then met
        else met.(looked := Some(if LookupKey(item) in w.secrets then Some(w.secrets[LookupKey(item)]) else None))
      case Generate(_, issued) => met.(answer := Some(issued))
      case _ => met
  }

  /** What the pass over item that begins at step b has met by state n. */
  function MetBy(ws: seq<World>, steps: seq<Step>, k: Key, item: Export, b: nat, n: nat): Met
    requires b <= n < |ws| && |ws| == |steps| + 1
    decreases n
  {
    if n == b then Met(None, None, None) else Meets(MetBy(ws, steps, k, item, b, n - 1), ws[n - 1], steps[n - 1], k, item)
  }

  function ClusterKey(k: Key, item: Export): Key {
    Key(k.namespace, item.spec.clusterRef)
  }

  predicate ClusterFound(k: Key, item: Export, w: World) {
    ClusterKey(k, item) in w.clusters
  }

  predicate ConnectionFound(k: Key, item: Export, w: World) {
    ClusterFound(k, item, w) && Key(k.namespace, w.clusters[ClusterKey(k, item)].connectionRef) in w.connections
  }

  /** How the pass ends, and the reason it gives. */
  function Reason(k: Key, item: Export, met: Met): string {
    match met.read
    case None => "ValidationFailed"
    case Some(w) =>
      if !ClusterFound(k, item, w) then "MissingCluster"
      else if !ConnectionFound(k, item, w) then "MissingConnection"
      else if met.answer == Some(None) then "ExportFailed"
      else "Exported"
  }

  predicate Succeeds(k: Key, item: Export, met: Met) {
    met.read.Some? && ConnectionFound(k, item, met.read.value) && met.answer != Some(None)
  }

  /** The cluster's name in Omni: the one its spec sets, or its own. */
  predicate Names(name: string, k: Key, item: Export, w: World) {
    && ClusterFound(k, item, w)
    && var given := w.clusters[ClusterKey(k, item)].specName;
    && (given != "" ==> name == given) && (given == "" ==> name == item.spec.clusterRef)
  }

  /** renewBefore, or nothing. */
  function Lead(spec: Spec): Nanos {
    if spec.renewBefore.Some? then spec.renewBefore.value else 0
  }

  /**
   The credential a pass ends with: a fresh one that Omni issued, counted from when the pass read the clock, or the
   one in the Secret it looked up.
   */
  predicate Obtains(item: Export, met: Met, name: string, hash: Digest, expiration: Nanos, last: Option<Nanos>) {
    && met.read.Some?
    && match met.answer
       case Some(Some(kubeconfig)) =>
         hash == Sha256(RawBytes(kubeconfig)) && expiration == met.read.value.now + item.spec.ttl && last == Some(met.read.value.now)
       case Some(None) => false
       case None =>
         && met.looked.Some? && met.looked.value.Some?
         && var s, key := met.looked.value.value, TargetSecretKey(item.spec);
         && ExportRate.Credential(s, key, SpecHash(item, name), expiration) && hash == Sha256(RawBytes(s.data[key]))
         && last == match AnnotationTime(s, LAST_ROTATION_ANNOTATION) case At(t) => Some(t) case _ => None
  }

  // ---------------------------------------------------------------- the report

  predicate Faithful(k: Key, item: Export, met: Met, r: Report) {
    && (r.exported <==> Succeeds(k, item, met)) && ReportedReason(r) == Reason(k, item, met)
    && (r.acceptedKnown <==> met.read.Some?)
    && (met.read.None? ==> !SpecAccepted(item.spec) && r.cluster.None? && r.connection.None?)
    && (met.read.Some? ==>
          var w := met.read.value;
          && (r.clusterExists <==> ClusterFound(k, item, w)) && (r.cluster.Some? <==> ClusterFound(k, item, w))
          && (r.cluster.Some? ==> Names(r.cluster.value, k, item, w))
          && (r.connection.Some? <==> ConnectionFound(k, item, w))
          && (r.connection.Some? ==> r.connection.value == w.clusters[ClusterKey(k, item)].connectionRef))
    && (if r.exported then
          && r.cluster.Some? && r.hash.Some? && r.expiration.Some?
          && Obtains(item, met, r.cluster.value, r.hash.value, r.expiration.value, r.lastRotation)
          && r.nextRotation == Some(r.expiration.value - Lead(item.spec))
        else r.hash.None? && r.expiration.None? && r.lastRotation.None? && r.nextRotation.None?)
  }

  /** The pass has read what this world held. */
  predicate ReadIn(pass: Pass, k: Key, item: Export, w: World) {
    && pass.item == item && SpecAccepted(item.spec) && pass.now == w.now
    && ConnectionFound(k, item, w) && Names(pass.clusterName, k, item, w)
    && pass.connection == w.clusters[ClusterKey(k, item)].connectionRef
  }

  /** Whatever the pass holds is what it met. */
  predicate Knows(p: Worker, k: Key, item: Export, met: Met) {
    match p
    case Idle => false
    case Resolving(x) => x == item && SpecAccepted(item.spec) && met == Met(None, None, None)
    case Cleaning(pass) => met.read.Some? && ReadIn(pass, k, item, met.read.value) && met.answer.None?
    case Looking(pass) => met.read.Some? && ReadIn(pass, k, item, met.read.value) && met.answer.None?
    case Generating(pass, _) => met.read.Some? && ReadIn(pass, k, item, met.read.value)
    case Writing(pass, _, kubeconfig) =>
      met.read.Some? && ReadIn(pass, k, item, met.read.value) && met.answer == Some(Some(kubeconfig))
    case Reporting(r) => Faithful(k, item, met, r)
    case Removing(_) => true
    case Releasing(_) => true
  }

  lemma BeginKnows(w: World, k: Key)
    requires Enabled(w, Begin(k, true)) && k in w.exports
    ensures
      var p := WorkerOf(Apply(w, Begin(k, true)), k);
      p.Idle? || Knows(p, k, w.exports[k], Met(None, None, None))
  {
    StepBegin(w, k, true);
    hide SpecAccepted, Apply, Enabled, Obtains;
  }

  /** What a pass reports that finds its cluster or its connection missing. */
  lemma MissingFaithful(k: Key, item: Export, w: World)
    requires !ConnectionFound(k, item, w)
    ensures !ClusterFound(k, item, w) ==>
      Faithful(k, item, Met(Some(w), None, None), Failure(None, None, false, true, REASON_MISSING_CLUSTER))
    ensures ClusterFound(k, item, w) ==>
      Faithful(k, item, Met(Some(w), None, None),
               Failure(Some(ClusterName(item.spec.clusterRef, w.clusters[ClusterKey(k, item)])), None, true, true, REASON_MISSING_CONNECTION))
  {
    hide Obtains, SpecAccepted;
  }

  lemma ResolveKnows(w: World, k: Key, ok: bool, item: Export, met: Met)
    requires Enabled(w, Resolve(k, ok)) && Knows(WorkerOf(w, k), k, item, met)
    ensures
      var p := WorkerOf(Apply(w, Resolve(k, ok)), k);
      p.Idle? || Knows(p, k, item, Meets(met, w, Resolve(k, ok), k, item))
  {
    StepResolve(w, k, ok);
    hide SpecAccepted, Apply, Enabled;
    if ok && !ConnectionFound(k, item, w) {
      MissingFaithful(k, item, w);
    }
    hide Faithful;
  }

  lemma AcceptedLead(spec: Spec)
    requires SpecAccepted(spec)
    ensures spec.renewBefore.Some? ==> spec.renewBefore.value > 0
  {
  }

  /** What a reuse reports is the credential of the Secret it found. */
  lemma ReuseFaithful(k: Key, item: Export, met: Met, pass: Pass, s: Secret)
    requires met.read.Some? && ReadIn(pass, k, item, met.read.value) && met.answer.None? && met.looked == Some(Some(s))
    requires CurrentState(s, TargetSecretKey(item.spec), SpecHash(item, pass.clusterName), pass.now, item.spec.renewBefore).Some?
    ensures
      var c := CurrentState(s, TargetSecretKey(item.spec), SpecHash(item, pass.clusterName), pass.now, item.spec.renewBefore).value;
      Faithful(k, item, met, Success(pass.clusterName, pass.connection, c.hash, c.expiration, c.lastRotation, c.nextRotation))
  {
    AcceptedLead(item.spec);
    ExportRate.CurrentIff(s, TargetSecretKey(item.spec), SpecHash(item, pass.clusterName), pass.now, item.spec.renewBefore);
    hide SpecAccepted, CurrentState, ExportRate.Credential, SpecHash;
  }

  lemma LookupKnows(w: World, k: Key, ok: bool, verdict: Verdict, item: Export, met: Met)
    requires Enabled(w, Lookup(k, ok, verdict)) && Knows(WorkerOf(w, k), k, item, met)
    ensures
      var p := WorkerOf(Apply(w, Lookup(k, ok, verdict)), k);
      p.Idle? || Knows(p, k, item, Meets(met, w, Lookup(k, ok, verdict), k, item))
  {
    hide Apply, Enabled, CurrentState, Faithful, SpecAccepted, SpecHash, ReadIn, LookupKey;
    StepLookupOf(w, k, ok, verdict);
    var pass := w.workers[k].pass;
    var after := Meets(met, w, Lookup(k, ok, verdict), k, item);
    SameItem(pass, k, item, met.read.value);
    if ok && Reusable(w, pass, verdict).Some? {
      ReuseFaithful(k, item, after, pass, w.secrets[LookupKey(item)]);
    }
  }

  lemma SameItem(pass: Pass, k: Key, item: Export, w: World)
    requires ReadIn(pass, k, item, w)
    ensures pass.item == item
  {
  }

  lemma StepLookupOf(w: World, k: Key, ok: bool, verdict: Verdict)
    requires Enabled(w, Lookup(k, ok, verdict))
    ensures WorkerOf(w, k).Looking?
    ensures Apply(w, Lookup(k, ok, verdict)) == LookedUp(w, k, ok, verdict, w.workers[k].pass)
  {
  }

  /** What a rotation reports is what Omni issued, counted from the clock as the pass read it. */
  lemma RotationFaithful(k: Key, item: Export, met: Met, pass: Pass, kubeconfig: Bytes)
    requires met.read.Some? && ReadIn(pass, k, item, met.read.value) && met.answer == Some(Some(kubeconfig))
    ensures Faithful(k, item, met, RotationReport(pass, kubeconfig))
  {
    AcceptedLead(item.spec);
    hide SpecAccepted;
  }

  lemma WriteKnows(w: World, k: Key, e: Effect, item: Export, met: Met)
    requires Enabled(w, WriteSecret(k, e)) && Knows(WorkerOf(w, k), k, item, met)
    ensures
      var p := WorkerOf(Apply(w, WriteSecret(k, e)), k);
      p.Idle? || Knows(p, k, item, met)
  {
    hide Apply, Enabled, Rewrite, Faithful, ReadIn, RotationReport, WriteAccepted, WriteKey;
    StepWriteOf(w, k, e);
    RotationFaithful(k, item, met, w.workers[k].pass, w.workers[k].kubeconfig);
  }

  lemma StepWriteOf(w: World, k: Key, e: Effect)
    requires Enabled(w, WriteSecret(k, e))
    ensures WorkerOf(w, k).Writing?
    ensures
      var p := w.workers[k];
      Apply(w, WriteSecret(k, e)) == Written(w, k, e, p.pass, p.base, p.kubeconfig)
  {
  }

  lemma GenerateKnows(w: World, k: Key, issued: Option<Bytes>, item: Export, met: Met)
    requires Enabled(w, Generate(k, issued)) && Knows(WorkerOf(w, k), k, item, met)
    ensures Knows(WorkerOf(Apply(w, Generate(k, issued)), k), k, item, Meets(met, w, Generate(k, issued), k, item))
  {
    hide SpecAccepted;
    StepGenerate(w, k, issued);
    hide Apply, Enabled;
  }

  lemma CleanupKnows(w: World, k: Key, e: Effect, item: Export, met: Met)
    requires Enabled(w, Cleanup(k, e)) && Knows(WorkerOf(w, k), k, item, met)
    ensures
      var p := WorkerOf(Apply(w, Cleanup(k, e)), k);
      p.Idle? || Knows(p, k, item, met)
  {
    hide ReadIn, CleanupDeletes, CleanupNeeded, Faithful;
  }

  lemma OwnStepKnows(w: World, s: Step, k: Key, item: Export, met: Met)
    requires Enabled(w, s) && Actor(s) == Some(k) && !s.Begin? && Knows(WorkerOf(w, k), k, item, met)
    ensures WorkerOf(Apply(w, s), k).Idle? || Knows(WorkerOf(Apply(w, s), k), k, item, Meets(met, w, s, k, item))
  {
    match s
    case Resolve(_, ok) => ResolveKnows(w, k, ok, item, met);
    case Cleanup(_, e) => CleanupKnows(w, k, e, item, met);
    case Lookup(_, ok, verdict) => LookupKnows(w, k, ok, verdict, item, met);
    case Generate(_, issued) => GenerateKnows(w, k, issued, item, met);
    case WriteSecret(_, e) => WriteKnows(w, k, e, item, met);
    case _ => hide Faithful, ReadIn, CommittedStatus, FinalDeletes;
  }

  lemma {:induction false} PassKnows(ws: seq<World>, steps: seq<Step>, k: Key, b: nat, n: nat)
    requires InPass(ws, steps, k, b, n)
    ensures Knows(WorkerOf(ws[n], k), k, ws[b].exports[k], MetBy(ws, steps, k, ws[b].exports[k], b, n))
    decreases n
  {
    hide Apply, Enabled, Knows;
    var w, s := ws[n - 1], steps[n - 1];
    if n == b + 1 {
      BeginKnows(w, k);
    } else {
      PassKnows(ws, steps, k, b, n - 1);
      if Actor(s) == Some(k) {
        assert !WorkerOf(w, k).Idle?;
        NotBegin(w, s, k);
        OwnStepKnows(w, s, k, ws[b].exports[k], MetBy(ws, steps, k, ws[b].exports[k], b, n - 1));
      } else {
        WorkerAfter(w, s, k);
      }
    }
  }

  // ---------------------------------------------------------------- the status

  /** The status names the export as it is stored at the commit. */
  predicate Identifies(status: Status, latest: Export) {
    && status.observedGeneration == latest.generation && status.clusterRef == latest.spec.clusterRef
    && status.targetName == latest.spec.targetName
    && status.targetNamespace == (if latest.spec.targetNamespace == "" then latest.key.namespace else latest.spec.targetNamespace)
    && status.targetKey == (if latest.spec.targetKey == "" then "kubeconfig" else latest.spec.targetKey)
  }

  /** Accepted says whether the cluster existed when the pass read it; a pass that read nothing leaves it as it was. */
  predicate AcceptedSays(status: Status, latest: Export, k: Key, item: Export, met: Met) {
    if met.read.None? then
      && (CONDITION_ACCEPTED in status.conditions <==> CONDITION_ACCEPTED in latest.status.conditions)
      && (CONDITION_ACCEPTED in status.conditions ==>
            status.conditions[CONDITION_ACCEPTED] == latest.status.conditions[CONDITION_ACCEPTED])
    else
      && CONDITION_ACCEPTED in status.conditions
      && status.conditions[CONDITION_ACCEPTED].generation == latest.generation
      && (status.conditions[CONDITION_ACCEPTED].holds <==> ClusterFound(k, item, met.read.value))
      && status.conditions[CONDITION_ACCEPTED].reason == (if ClusterFound(k, item, met.read.value) then "Accepted" else "MissingCluster")
  }

  /** Exported and Ready are the verdict of the pass, and the times recorded are whole seconds of its credential. */
  predicate VerdictSays(status: Status, latest: Export, k: Key, item: Export, met: Met) {
    && CONDITION_EXPORTED in status.conditions && CONDITION_READY in status.conditions
    && status.conditions[CONDITION_EXPORTED] == status.conditions[CONDITION_READY]
    && status.conditions[CONDITION_READY].generation == latest.generation
    && status.conditions[CONDITION_READY].reason == Reason(k, item, met)
    && (status.conditions[CONDITION_READY].holds <==> Succeeds(k, item, met))
    && (met.read.Some? && ClusterFound(k, item, met.read.value) ==> Names(status.clusterName, k, item, met.read.value))
    && (met.read.Some? && ConnectionFound(k, item, met.read.value) ==>
          status.connectionRef == met.read.value.clusters[ClusterKey(k, item)].connectionRef)
  }

  ghost predicate ScheduleSays(status: Status, k: Key, item: Export, met: Met) {
    if !Succeeds(k, item, met) then
      status.hash.None? && status.expiration.None? && status.lastRotation.None? && status.nextRotation.None?
    else
      exists expiration, last ::
        && status.hash.Some? && Obtains(item, met, status.clusterName, status.hash.value, expiration, last)
        && status.expiration == Some(FloorSecond(expiration))
        && status.nextRotation == Some(FloorSecond(expiration - Lead(item.spec)))
        && (last.Some? <==> status.lastRotation.Some?)
        && (last.Some? ==> status.lastRotation == Some(FloorSecond(last.value)))
  }

  lemma CommitSays(latest: Export, k: Key, item: Export, met: Met, r: Report)
    requires Faithful(k, item, met, r)
    ensures
      var status := CommittedStatus(latest, r);
      && Identifies(status, latest) && AcceptedSays(status, latest, k, item, met)
      && VerdictSays(status, latest, k, item, met) && ScheduleSays(status, k, item, met)
  {
    hide SpecAccepted, Obtains, FloorSecond, Reason;
    var status := CommittedStatus(latest, r);
    if r.exported {
      assert Obtains(item, met, status.clusterName, status.hash.value, r.expiration.value, r.lastRotation);
    }
  }

  /**
   In any run, whatever falls between the steps of a pass, the status it commits says: the export as it is stored by
   then; whether the cluster named at the beginning existed when it was read; and how the pass ended and why, with the
   hash, expiry, rotation and next rotation of the credential it obtained, or none of these if it obtained none.
   */
  lemma StatusSays(ws: seq<World>, steps: seq<Step>, k: Key, b: nat, c: nat)
    requires InPass(ws, steps, k, b, c) && c < |steps| && steps[c] == Commit(k, true)
    ensures k in ws[c].exports && k in ws[c + 1].exports
    ensures
      var item, latest, status := ws[b].exports[k], ws[c].exports[k], ws[c + 1].exports[k].status;
      var met := MetBy(ws, steps, k, item, b, c);
      && Identifies(status, latest) && AcceptedSays(status, latest, k, item, met)
      && VerdictSays(status, latest, k, item, met) && ScheduleSays(status, k, item, met)
    ensures ws[c + 1].secrets == ws[c].secrets && ws[c + 1].exports[k] == ws[c].exports[k].(status := ws[c + 1].exports[k].status)
  {
    PassKnows(ws, steps, k, b, c);
    CommitIs(ws[c], k);
    hide Apply, Enabled, CommittedStatus, Identifies, AcceptedSays, VerdictSays, ScheduleSays, Faithful;
    CommitSays(ws[c].exports[k], k, ws[b].exports[k], MetBy(ws, steps, k, ws[b].exports[k], b, c), ws[c].workers[k].report);
  }

  lemma CommitIs(w: World, k: Key)
    requires Enabled(w, Commit(k, true))
    ensures k in w.exports && k in w.workers && w.workers[k].Reporting?
    ensures Apply(w, Commit(k, true)) == Committed(w, k, true, w.workers[k].report)
  {
  }
}
