/** What a single step of the export machine can change, object by object. */
module ExportSteps {
  import opened Kube
  import opened KubeconfigExport
  import opened ExportModel

  /** Step s at world w rewrites (or creates) the Secret at x; the worker may not learn of it. */
  predicate Rewrites(w: World, s: Step, x: Key) {
    s.WriteSecret? && !s.effect.Refused? && s.k in w.workers && w.workers[s.k].Writing?
    && WriteKey(w.workers[s.k].pass, w.workers[s.k].base) == x
  }

  /** The pass that makes the rewrite. */
  function Author(w: World, s: Step, x: Key): Pass
    requires Rewrites(w, s, x)
  {
    w.workers[s.k].pass
  }

  /** Step s at world w obtains a kubeconfig from Omni. */
  predicate Issues(w: World, s: Step) {
    s.Generate? && s.issued.Some? && s.k in w.workers && w.workers[s.k].Generating?
  }

  function Before(w: World, x: Key): Secret {
    if x in w.secrets then w.secrets[x] else NEW_SECRET
  }

  /** Whose worker takes the step. */
  function Actor(s: Step): Option<Key> {
    match s
    case Tick(_) => None
    case Create(_, _, _) => None
    case EditSpec(_, _) => None
    case MarkDeleted(_) => None
    case SetCluster(_, _) => None
    case SetConnection(_, _) => None
    case EditSecret(_, _) => None
    case _ => Some(s.k)
  }

  predicate SameSecret(w: World, v: World, x: Key) {
    (x in w.secrets <==> x in v.secrets) && (x in w.secrets ==> w.secrets[x] == v.secrets[x])
  }

  /** A Secret present after a step was just rewritten, or edited by the environment, or is untouched. */
  lemma SecretAfter(w: World, s: Step, x: Key)
    requires Enabled(w, s) && x in Apply(w, s).secrets
    ensures
      var after := Apply(w, s).secrets[x];
      if Rewrites(w, s, x) then
        var p := w.workers[s.k];
        after == Rewrite(Before(w, x), p.pass.item, p.pass.clusterName, p.kubeconfig, p.pass.now)
      else if s.EditSecret? && s.k == x then MarksNotForged(w.secrets, x, after)
      else x in w.secrets && after == w.secrets[x]
  {
    hide Begun, Resolved, Cleaned, LookedUp, Generated, Committed, Removed;
  }

  /** A Secret that an operator step removes is owned by the export whose pass removes it. */
  lemma SecretGone(w: World, s: Step, x: Key)
    requires Enabled(w, s) && x in w.secrets && x !in Apply(w, s).secrets && !s.EditSecret?
    ensures (s.Cleanup? || s.Remove?) && s.k in w.workers
    ensures Snapshot(w.workers[s.k]).Some? && IsOwnedSecret(Snapshot(w.workers[s.k]).value, w.secrets[x])
    ensures Snapshot(w.workers[s.k]).value.spec.deletionPolicy == POLICY_DELETE
    ensures s.Cleanup? ==> x == PreviousKey(Snapshot(w.workers[s.k]).value) != SpecTarget(Snapshot(w.workers[s.k]).value)
    ensures s.Remove? ==> w.workers[s.k].Removing? && x == LookupKey(w.workers[s.k].item)
  {
    hide Begun, Resolved, Cleaned, LookedUp, Generated, Written, Committed, Removed;
  }

  /** A pass keeps the export it read first. */
  lemma SnapshotAfter(w: World, s: Step, k: Key)
    requires Enabled(w, s) && k in Apply(w, s).workers && Snapshot(Apply(w, s).workers[k]).Some?
    ensures
      var after := Snapshot(Apply(w, s).workers[k]);
      || (k in w.workers && after == Snapshot(w.workers[k]))
      || (k in w.exports && after == Some(w.exports[k]))
  {
    hide Begun, Resolved, Cleaned, LookedUp, Generated, Written, Committed, Removed;
  }

  lemma PassAfter(w: World, s: Step, k: Key)
    requires Enabled(w, s) && k in Apply(w, s).workers && PassOf(Apply(w, s).workers[k]).Some?
    ensures
      var after := PassOf(Apply(w, s).workers[k]);
      || (k in w.workers && after == PassOf(w.workers[k]))
      || after.value.now == w.now
    ensures w.now <= Apply(w, s).now
  {
    hide Begun, Resolved, Cleaned, LookedUp, Generated, Written, Committed, Removed;
  }

  lemma WritingAfter(w: World, s: Step, k: Key)
    requires Enabled(w, s) && k in Apply(w, s).workers && Apply(w, s).workers[k].Writing?
    ensures
      var after := Apply(w, s).workers[k];
      || (k in w.workers && after == w.workers[k])
      || (s == Generate(k, Some(after.kubeconfig)) && Issues(w, s)
          && w.workers[k] == Generating(after.pass, after.base))
  {
    hide Begun, Resolved, Cleaned, LookedUp, Generated, Written, Committed, Removed;
  }

  lemma ReportAfter(w: World, s: Step, k: Key)
    requires Enabled(w, s) && k in Apply(w, s).workers && Apply(w, s).workers[k].Reporting?
    ensures
      var after := Apply(w, s).workers[k];
      || (k in w.workers && after == w.workers[k])
      || (after.report.exported <==> (after.report.hash.Some? && after.report.expiration.Some?))
  {
    hide Begun, Resolved, Cleaned, LookedUp, Generated, Written, Committed, Removed;
  }

  /** A stored export keeps its identity; its status changes only by a commit against its own spec. */
  lemma ExportAfter(w: World, s: Step, k: Key)
    requires Enabled(w, s) && k in Apply(w, s).exports
    ensures
      var after := Apply(w, s).exports[k];
      if k !in w.exports then
        && s.Create? && after.key == k && after.uid != "" && after.status == EMPTY_STATUS
        && k.namespace != "" && k.name != ""
      else
        var before := w.exports[k];
        && after.key == before.key && after.uid == before.uid
        && (|| after.status == before.status
            || (s.Commit? && s.k == k && k in w.workers && w.workers[k].Reporting?
                && after.status == CommittedStatus(before, w.workers[k].report)))
  {
    hide Begun, Resolved, Cleaned, LookedUp, Generated, Written, Committed, Removed;
  }

  /** Another's step leaves a worker alone. */
  lemma WorkerAfter(w: World, s: Step, k: Key)
    requires Enabled(w, s) && Actor(s) != Some(k)
    ensures WorkerOf(Apply(w, s), k) == WorkerOf(w, k)
  {
    hide Begun, Resolved, Cleaned, LookedUp, Generated, Written, Committed, Removed;
  }

  lemma ClockAfter(w: World, s: Step)
    requires Enabled(w, s)
    ensures w.now <= Apply(w, s).now
  {
    hide Begun, Resolved, Cleaned, LookedUp, Generated, Written, Committed, Removed;
  }

  // ---------------------------------------------------------------- building runs

  /** A trace of worlds and steps, grown by one step. */
  lemma Extend(ws: seq<World>, steps: seq<Step>, s: Step, v: World) returns (vs: seq<World>, ss: seq<Step>)
    requires IsRun(ws, steps) && Enabled(ws[|steps|], s) && v == Apply(ws[|steps|], s)
    ensures IsRun(vs, ss) && vs == ws + [v] && ss == steps + [s]
  {
    hide Apply, Enabled;
    vs, ss := ws + [v], steps + [s];
    forall i | 0 <= i < |ss| ensures Enabled(vs[i], ss[i]) && vs[i + 1] == Apply(vs[i], ss[i]) {
      if i < |steps| {
        assert vs[i] == ws[i] && vs[i + 1] == ws[i + 1] && ss[i] == steps[i];
      }
    }
  }

  lemma StepBegin(w: World, k: Key, ok: bool)
    requires WorkerOf(w, k).Idle?
    ensures Enabled(w, Begin(k, ok)) && Apply(w, Begin(k, ok)) == Begun(w, k, ok)
  {
  }

  lemma StepResolve(w: World, k: Key, ok: bool)
    requires WorkerOf(w, k).Resolving?
    ensures Enabled(w, Resolve(k, ok)) && Apply(w, Resolve(k, ok)) == Resolved(w, k, ok, w.workers[k].item)
  {
  }

  lemma StepLookup(w: World, k: Key, ok: bool, verdict: Verdict)
    requires WorkerOf(w, k).Looking?
    ensures Enabled(w, Lookup(k, ok, verdict))
    ensures Apply(w, Lookup(k, ok, verdict)) == LookedUp(w, k, ok, verdict, w.workers[k].pass)
  {
  }

  lemma StepCommit(w: World, k: Key, ok: bool)
    requires WorkerOf(w, k).Reporting? && (ok ==> k in w.exports)
    ensures Enabled(w, Commit(k, ok)) && Apply(w, Commit(k, ok)) == Committed(w, k, ok, w.workers[k].report)
  {
  }

  lemma StepRemove(w: World, k: Key, e: Effect)
    requires WorkerOf(w, k).Removing?
    ensures Enabled(w, Remove(k, e)) && Apply(w, Remove(k, e)) == Removed(w, k, e, w.workers[k].item)
  {
  }

  lemma StepRelease(w: World, k: Key, ok: bool)
    requires WorkerOf(w, k).Releasing? && (ok ==> k in w.exports && w.exports[k] == w.workers[k].item)
    ensures Enabled(w, Release(k, ok))
    ensures Apply(w, Release(k, ok)) == Goto(w, k, Idle).(exports := if ok then w.exports - {k} else w.exports)
  {
  }

  lemma StepGenerate(w: World, k: Key, issued: Option<Bytes>)
    requires WorkerOf(w, k).Generating?
    ensures Enabled(w, Generate(k, issued))
    ensures Apply(w, Generate(k, issued)) == Generated(w, k, issued, w.workers[k].pass, w.workers[k].base)
  {
  }

  lemma StepWrite(w: World, k: Key, e: Effect)
    requires WorkerOf(w, k).Writing? && (!e.Refused? ==> WriteAccepted(w, w.workers[k].pass, w.workers[k].base))
    ensures Enabled(w, WriteSecret(k, e))
    ensures Apply(w, WriteSecret(k, e)) == Written(w, k, e, w.workers[k].pass, w.workers[k].base, w.workers[k].kubeconfig)
  {
  }

  lemma StepCleanup(w: World, k: Key, e: Effect)
    requires WorkerOf(w, k).Cleaning?
    ensures Enabled(w, Cleanup(k, e)) && Apply(w, Cleanup(k, e)) == Cleaned(w, k, e, w.workers[k].pass)
  {
  }
}
