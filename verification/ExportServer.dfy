/**
 The export reconciler as the program runs it: a sequence of in-place updates of the API server.
 Every method is one phase of Reconcile and is tied to the machine step it stands for, so whatever
 the machine keeps on every run, the program keeps.
 */
module ExportServer {
  import opened Kube
  import opened KubeconfigExport
  import opened ExportModel
  import opened ExportSteps
  import opened ExportRuns
  import opened ExportTruth
  import ExportRate
  import ExportSafety

  /** What Reconcile hands back to its caller. */
  datatype Outcome = Finished | RetryNow | RetryAfter(delay: Nanos) | Failed

  const RETRY_INTERVAL: Nanos := 60 * SECOND

  /** How the foreign calls of one pass turn out: API reads and writes, the live check, Omni. */
  datatype Foreign = Foreign(readItem: bool, readCluster: bool, cleanup: Effect, readSecret: bool, verdict: Verdict,
                             kubeconfig: Option<Bytes>, write: Effect, commit: bool, remove: Effect, release: bool)

  /** What a phase decides: stop here, report and stop, take the deletion path, or go on. */
  datatype Decision<T> = Stop(out: Outcome) | Tell(report: Report) | Delete(item: Export) | Go(value: T)

  /** How a pass starts on an export as it was read. */
  ghost predicate StartsWith(item: Export, d: Decision<Export>) {
    && (item.deleting ==> d == if item.finalizer then Delete(item) else Stop(Finished))
    && (!item.deleting && !item.finalizer ==> d == Stop(RetryNow))
    && (!item.deleting && item.finalizer && SpecAccepted(item.spec) ==> d == Go(item))
    && (!item.deleting && item.finalizer && !SpecAccepted(item.spec) ==>
          d.Tell? && Blames(d.report, "ValidationFailed"))
  }

  /** The same exports are stored, and at most the one at k has changed. */
  ghost predicate OnlyAt(before: map<Key, Export>, after: map<Key, Export>, k: Key) {
    before.Keys == after.Keys && before - {k} == after - {k}
  }

  /** A report of failure, and why. */
  predicate Blames(r: Report, reason: string) {
    !r.exported && ReportedReason(r) == reason && r.hash.None? && r.expiration.None?
  }

  /** What an export that is not reachable lacks. */
  function Lacks(item: Export, k: Key, clusters: map<Key, Cluster>): string {
    if Key(k.namespace, item.spec.clusterRef) in clusters then "MissingConnection" else "MissingCluster"
  }

  /** The status says that the last pass did not export, and why. */
  predicate Refuses(item: Export, reason: string) {
    && CONDITION_READY in item.status.conditions && CONDITION_EXPORTED in item.status.conditions
    && item.status.conditions[CONDITION_READY] == item.status.conditions[CONDITION_EXPORTED]
         == Condition(false, item.generation, reason)
    && item.status.hash.None? && item.status.expiration.None?
  }

  /** A write of this item meets the Secret it looked up, or nothing. */
  predicate Vacant(item: Export, secrets: map<Key, Secret>) {
    LookupKey(item) in secrets || SpecTarget(item) !in secrets
  }

  /** The cluster and the connection that a pass over this export reads are there. */
  predicate Reachable(w: World, k: Key) {
    && k in w.exports
    && var ck := Key(k.namespace, w.exports[k].spec.clusterRef);
    && ck in w.clusters && Key(k.namespace, w.clusters[ck].connectionRef) in w.connections
  }

  /** The foreign calls that the pass makes all succeed, and it either reuses the stored kubeconfig or can write a new one. */
  ghost predicate GoesThrough(w: World, k: Key, o: Foreign)
    requires k in w.exports
  {
    var item := w.exports[k];
    && o.readCluster && (o.cleanup.Done? || !CleanupNeeded(item)) && o.readSecret && o.commit
    && (Reuses(w, k, o.verdict).Some? || (o.kubeconfig.Some? && o.write.Done? && !Occupied(item, w.secrets)))
  }

  /**
   A pass over an export under deletion: an export the operator does not hold is left alone; otherwise only the
   Delete policy takes anything away, at most the one Secret looked up, and the export goes with the finalizer,
   leaving no Secret of its own there.
   */
  ghost predicate LetsGo(before: World, after: World, k: Key, o: Foreign, out: Outcome)
    requires k in before.exports
  {
    var item := before.exports[k];
    if !item.finalizer then after.exports == before.exports && after.secrets == before.secrets
    else
      var x := LookupKey(item);
      && after.secrets - {x} == before.secrets - {x}
      && (item.spec.deletionPolicy != "Delete" ==> after.secrets == before.secrets && (out.Finished? <==> o.release))
      && (o.remove.Done? && o.release ==> out.Finished?)
      && after.exports == (if out.Finished? then before.exports - {k} else before.exports)
      && (out.Finished? && item.spec.deletionPolicy == "Delete" && item.spec.targetName != "" ==>
            x in after.secrets ==> !IsOwnedSecret(item, after.secrets[x]))
  }

  /**
   A pass over a live export: the finalizer first, then the spec check, then the dependencies, each failure with its
   own report and no Secret touched; and past these it exports exactly if its foreign calls go through.
   */
  ghost predicate Keeps(before: World, after: World, k: Key, o: Foreign, out: Outcome, exported: bool)
    requires k in before.exports
  {
    var item := before.exports[k];
    if !item.finalizer then
      && after.exports == before.exports[k := item.(finalizer := true)]
      && after.secrets == before.secrets && out.RetryNow? && !exported
    else
      && k in after.exports
      && (exported <==> SpecAccepted(item.spec) && Reachable(before, k) && GoesThrough(before, k, o))
      && (!(SpecAccepted(item.spec) && Reachable(before, k)) ==> after.secrets == before.secrets)
      && (!SpecAccepted(item.spec) && o.commit ==> out.Finished? && Refuses(after.exports[k], "ValidationFailed"))
      && (SpecAccepted(item.spec) && !Reachable(before, k) && o.readCluster && o.commit ==>
            out == RetryAfter(60 * 1_000_000_000) && Refuses(after.exports[k], Lacks(item, k, before.clusters)))
  }

  class Server {
    var now: Nanos
    var exports: map<Key, Export>
    var clusters: map<Key, Cluster>
    var connections: set<Key>
    var secrets: map<Key, Secret>
    ghost var workers: map<Key, Worker>

    ghost function State(): World
      reads this
    {
      World(now, exports, clusters, connections, secrets, workers)
    }

    /** Get, the deletion branch, ensureFinalizer and the spec check. */
    method Start(k: Key, ok: bool) returns (d: Decision<Export>)
      requires WorkerOf(State(), k).Idle?
      modifies this`exports, this`workers
      ensures Enabled(old(State()), Begin(k, ok)) && State() == Apply(old(State()), Begin(k, ok))
      ensures WorkerOf(State(), k) == match d
        case Stop(_) => Idle
        case Tell(r) => Reporting(r)
        case Delete(item) => Removing(item)
        case Go(item) => Resolving(item)
      ensures !ok || k !in old(exports) ==> d == Stop(if ok then Finished else Failed) && exports == old(exports)
      ensures ok && k in old(exports) ==> StartsWith(old(exports)[k], d)
      ensures ok && k in old(exports) ==>
                exports == if d == Stop(RetryNow) then old(exports)[k := old(exports)[k].(finalizer := true)] else old(exports)
    {
      hide Apply, Enabled, SpecAccepted, PassOf, Snapshot, CoherentReport;
      StepBegin(State(), k, ok);
      if !ok || k !in exports {
        workers := workers[k := Idle];
        return Stop(if ok then Finished else Failed);
      }
      var item := exports[k];
      if item.deleting {
        workers := workers[k := if item.finalizer then Removing(item) else Idle];
        return if item.finalizer then Delete(item) else Stop(Finished);
      }
      if !item.finalizer {
        workers := workers[k := Idle];
        exports := exports[k := item.(finalizer := true)];
        return Stop(RetryNow);
      }
      if !SpecAccepted(item.spec) {
        var r := Failure(None, None, false, false, REASON_VALIDATION_FAILED);
        workers := workers[k := Reporting(r)];
        return Tell(r);
      }
      workers := workers[k := Resolving(item)];
      return Go(item);
    }

    /** exportCluster, exportConnection, and the clock. */
    method Dependencies(k: Key, item: Export, ok: bool) returns (d: Decision<Pass>)
      requires WorkerOf(State(), k) == Resolving(item)
      modifies this`workers
      ensures Enabled(old(State()), Resolve(k, ok)) && State() == Apply(old(State()), Resolve(k, ok))
      ensures !d.Delete? && WorkerOf(State(), k) == match d
        case Stop(_) => Idle
        case Tell(r) => Reporting(r)
        case Go(pass) => Cleaning(pass)
      ensures d.Stop? ==> d.out == Failed
      ensures d.Tell? ==> Blames(d.report, Lacks(item, k, clusters))
      ensures d.Stop? <==> !ok
      ensures d.Go? ==> d.value.item == item && d.value.now == now && ok
      ensures d.Go? <==> (ok && Key(k.namespace, item.spec.clusterRef) in clusters
                && Key(k.namespace, clusters[Key(k.namespace, item.spec.clusterRef)].connectionRef) in connections)
      ensures d.Go? && k in exports && exports[k] == item ==> d.value == PassFor(State(), k)
    {
      hide Apply, Enabled, SpecAccepted, Rewrite, Reusable, CommittedStatus;
      StepResolve(State(), k, ok);
      workers := workers[k := Idle];
      if !ok {
        return Stop(Failed);
      }
      var clusterKey := Key(k.namespace, item.spec.clusterRef);
      if clusterKey !in clusters {
        var r := Failure(None, None, false, true, REASON_MISSING_CLUSTER);
        workers := workers[k := Reporting(r)];
        return Tell(r);
      }
      var cluster := clusters[clusterKey];
      var clusterName := ClusterName(clusterKey.name, cluster);
      if Key(k.namespace, cluster.connectionRef) !in connections {
        var r := Failure(Some(clusterName), None, true, true, REASON_MISSING_CONNECTION);
        workers := workers[k := Reporting(r)];
        return Tell(r);
      }
      var pass := Pass(item, clusterName, cluster.connectionRef, now);
      workers := workers[k := Cleaning(pass)];
      return Go(pass);
    }

    /** deletePreviousTargetSecret: read, check ownership, delete. */
    method DeletePreviousTargetSecret(item: Export, e: Effect) returns (ok: bool)
      modifies this`secrets
      ensures ok <==> e.Done? || !CleanupNeeded(item)
      ensures
        var x := ExportSafety.RecordedAt(item);
        && secrets - {x} == old(secrets) - {x}
        && (ok && item.spec.deletionPolicy == "Delete" && item.status.targetName != "" && x != ExportSafety.SpecifiedAt(item) ==>
              x in secrets ==> !IsOwnedSecret(item, secrets[x]))
      ensures secrets == if e.Refused? then old(secrets) else CleanedSecrets(old(secrets), item)
    {
      ok := true;
      var currentNamespace := TargetSecretNamespace(item);
      var previousNamespace := item.status.targetNamespace;
      if previousNamespace == "" {
        previousNamespace := item.key.namespace;
      }
      if item.spec.deletionPolicy != POLICY_DELETE || item.status.targetName == ""
         || (item.status.targetName == item.spec.targetName && previousNamespace == currentNamespace) {
        return;
      }
      ok := e.Done?;
      var previous := Key(previousNamespace, item.status.targetName);
      if previous in secrets && IsOwnedSecret(item, secrets[previous]) && !e.Refused? {
        secrets := secrets - {previous};
      }
    }

    /** targetSecret: prefer the recorded target. */
    method TargetSecret(item: Export) returns (found: Option<Found>)
      ensures found == if LookupKey(item) in secrets then Some(Found(LookupKey(item), secrets[LookupKey(item)])) else None
      ensures found.Some? && item.status.targetName != "" && item.status.targetNamespace != "" ==>
                found.value.key == Key(item.status.targetNamespace, item.status.targetName)
      ensures found.Some? && (item.status.targetName == "" || item.status.targetNamespace == "") ==>
                found.value.key == Key(if item.spec.targetNamespace == "" then item.key.namespace else item.spec.targetNamespace,
                                       item.spec.targetName)
    {
      var key := Key(TargetSecretNamespace(item), item.spec.targetName);
      if item.status.targetName != "" && item.status.targetNamespace != "" {
        key := Key(item.status.targetNamespace, item.status.targetName);
      }
      if key in secrets {
        found := Some(Found(key, secrets[key]));
      } else {
        found := None;
      }
    }

    /** Update or create the target Secret in place; returns how that went. */
    method PutSecret(pass: Pass, found: Option<Found>, kubeconfig: Bytes, e: Effect) returns (r: Effect)
      modifies this`secrets
      ensures r == if WriteAccepted(old(State()), pass, found) then e else Refused
      ensures r.Refused? ==> secrets == old(secrets)
      ensures !r.Refused? ==> secrets == old(secrets)[WriteKey(pass, found) :=
                Rewrite(if found.Some? then found.value.secret else NEW_SECRET, pass.item, pass.clusterName,
                        kubeconfig, pass.now)]
    {
      var item := pass.item;
      var targetKey := TargetSecretKey(item.spec);
      var secret := NEW_SECRET;
      if found.Some? {
        secret := found.value.secret;
      }
      secret := secret.(labels := secret.labels + SecretLabels(item, pass.clusterName));
      secret := secret.(annotations := secret.annotations
        + SecretAnnotations(item, SpecHash(item, pass.clusterName), Hash(kubeconfig), pass.now + item.spec.ttl, pass.now));
      if IsOwnedSecret(item, secret) && item.status.targetName == item.spec.targetName
         && item.status.targetKey != "" && item.status.targetKey != targetKey {
        secret := secret.(data := secret.data - {item.status.targetKey});
      }
      secret := secret.(data := secret.data[targetKey := kubeconfig]);
      var key := if found.Some? then found.value.key else Key(TargetSecretNamespace(item), item.spec.targetName);
      var stored := if key in secrets then Some(secrets[key]) else None;
      if stored != (if found.Some? then Some(found.value.secret) else None) {
        return Refused;
      }
      if !e.Refused? {
        secrets := secrets[key := secret];
      }
      return e;
    }

    /** The fields of the status, one after the other. */
    method WithReport(latest: Export, r: Report) returns (status: Status)
      ensures status == CommittedStatus(latest, r)
    {
      status := latest.status;
      status := status.(observedGeneration := latest.generation, clusterRef := latest.spec.clusterRef);
      status := status.(targetName := latest.spec.targetName, targetNamespace := TargetSecretNamespace(latest),
                        targetKey := TargetSecretKey(latest.spec));
      if r.cluster.Some? {
        status := status.(clusterName := r.cluster.value);
      }
      if r.connection.Some? {
        status := status.(connectionRef := r.connection.value);
      }
      status := status.(hash := r.hash, expiration := Stored(r.expiration),
                        lastRotation := Stored(r.lastRotation), nextRotation := Stored(r.nextRotation));
      if r.acceptedKnown {
        status := status.(conditions :=
          status.conditions[CONDITION_ACCEPTED := AcceptedCondition(latest.generation, r.clusterExists)]);
      }
      var verdict := Condition(r.exported, latest.generation, ReportedReason(r));
      status := status.(conditions := status.conditions[CONDITION_EXPORTED := verdict]);
      status := status.(conditions := status.conditions[CONDITION_READY := verdict]);
    }

    /** updateKubeconfigExportStatus, against the export as it is stored now. */
    method UpdateStatus(k: Key, r: Report, ok: bool) returns (err: bool)
      requires WorkerOf(State(), k) == Reporting(r)
      modifies this`exports, this`workers
      ensures err <==> !ok || k !in old(exports)
      ensures WorkerOf(State(), k).Idle?
      ensures OnlyAt(old(exports), exports, k)
      ensures !err ==> exports == old(exports)[k := old(exports)[k].(status := CommittedStatus(old(exports)[k], r))]
      ensures Enabled(old(State()), Commit(k, !err)) && State() == Apply(old(State()), Commit(k, !err))
    {
      hide Apply, Enabled, SpecAccepted, Rewrite, Reusable, CommittedStatus;
      StepCommit(State(), k, ok && k in exports);
      workers := workers[k := Idle];
      if !ok || k !in exports {
        return true;
      }
      var latest := exports[k];
      var status := WithReport(latest, r);
      SameElsewhere(exports, k, latest.(status := status));
      hide OnlyAt;
      exports := exports[k := latest.(status := status)];
      return false;
    }

    /** reconcileDelete: remove an owned Secret, then release the finalizer. */
    method ReconcileDelete(k: Key, item: Export, o: Foreign, ghost ws0: seq<World>, ghost steps0: seq<Step>)
      returns (out: Outcome, ghost ws: seq<World>, ghost steps: seq<Step>)
      requires WorkerOf(State(), k) == Removing(item) && k in exports && exports[k] == item
      requires IsRun(ws0, steps0) && ws0[|steps0|] == State()
      modifies this`exports, this`secrets, this`workers
      ensures IsRun(ws, steps) && ws[0] == ws0[0] && ws[|steps|] == State()
      ensures WorkerOf(State(), k).Idle? && !out.RetryAfter?
      ensures out.Finished? <==> (o.remove.Done? || !RemovalNeeded(item)) && o.release
      ensures out.Finished? ==> k !in exports && !FinalDeletes(item, secrets)
      ensures exports == if out.Finished? then old(exports) - {k} else old(exports)
      ensures secrets == old(secrets) || (RemovalNeeded(item) && secrets == old(secrets) - {LookupKey(item)})
      ensures out.Finished? || out.Failed?
    {
      hide Apply, Enabled, IsOwnedSecret;
      StepRemove(State(), k, o.remove);
      ws, steps := ws0, steps0;
      if item.spec.deletionPolicy == POLICY_DELETE && item.spec.targetName != "" {
        var found := TargetSecret(item);
        if found.Some? && IsOwnedSecret(item, found.value.secret) && !o.remove.Refused? {
          secrets := secrets - {found.value.key};
        }
        if !o.remove.Done? {
          workers := workers[k := Idle];
          ws, steps := Extend(ws, steps, Remove(k, o.remove), State());
          return Failed, ws, steps;
        }
      }
      workers := workers[k := Releasing(item)];
      ws, steps := Extend(ws, steps, Remove(k, o.remove), State());
      StepRelease(State(), k, o.release);
      workers := workers[k := Idle];
      if o.release {
        exports := exports - {k};
      }
      ws, steps := Extend(ws, steps, Release(k, o.release), State());
      out := if o.release then Finished else Failed;
    }

    /** The lookup, and the decision between reuse and rotation. */
    method Inspect(k: Key, pass: Pass, ok: bool, verdict: Verdict)
      returns (d: Decision<Option<Found>>)
      requires WorkerOf(State(), k) == Looking(pass)
      modifies this`workers
      ensures Enabled(old(State()), Lookup(k, ok, verdict)) && State() == Apply(old(State()), Lookup(k, ok, verdict))
      ensures !d.Delete? && WorkerOf(State(), k) == match d
        case Stop(_) => Idle
        case Tell(r) => Reporting(r)
        case Go(found) => Generating(pass, found)
      ensures d.Stop? ==> d.out == Failed && !ok
      ensures d.Tell? || d.Go? ==> ok
      ensures d.Tell? <==> ok && Reusable(old(State()), pass, verdict).Some?
      ensures d.Tell? ==> d.report.exported
      ensures d.Tell? ==> d.report.nextRotation == Some(Reusable(old(State()), pass, verdict).value.nextRotation)
      ensures d.Go? ==> d.value == if LookupKey(pass.item) in secrets then Some(Found(LookupKey(pass.item), secrets[LookupKey(pass.item)])) else None
    {
      hide Apply, Enabled, SpecAccepted, Rewrite, CommittedStatus;
      StepLookup(State(), k, ok, verdict);
      workers := workers[k := Idle];
      if !ok {
        return Stop(Failed);
      }
      var found := TargetSecret(pass.item);
      if found.Some? {
        var current := CurrentState(found.value.secret, TargetSecretKey(pass.item.spec),
                                SpecHash(pass.item, pass.clusterName), pass.now, pass.item.spec.renewBefore);
        if current.Some? && !verdict.Stale? {
          var c := current.value;
          var r := Success(pass.clusterName, pass.connection, c.hash, c.expiration, c.lastRotation, c.nextRotation);
          workers := workers[k := Reporting(r)];
          return Tell(r);
        }
      }
      workers := workers[k := Generating(pass, found)];
      return Go(found);
    }

    /** Report and finish a pass that cannot go on. */
    method Report(k: Key, r: Report, out0: Outcome, o: Foreign, ghost ws0: seq<World>, ghost steps0: seq<Step>)
      returns (out: Outcome, ghost ws: seq<World>, ghost steps: seq<Step>)
      requires WorkerOf(State(), k) == Reporting(r)
      requires IsRun(ws0, steps0) && ws0[|steps0|] == State()
      modifies this`exports, this`workers
      ensures IsRun(ws, steps) && ws0 <= ws && ws[|steps|] == State()
      ensures WorkerOf(State(), k).Idle?
      ensures out == if o.commit && k in old(exports) then out0 else Failed
      ensures OnlyAt(old(exports), exports, k)
      ensures o.commit && k in old(exports) ==> k in exports && (forall reason :: Blames(r, reason) ==> Refuses(exports[k], reason))
      ensures steps == steps0 + [Commit(k, o.commit && k in old(exports))]
    {
      hide Apply, Enabled;
      ghost var before := exports;
      var err := UpdateStatus(k, r, o.commit);
      ws, steps := Extend(ws0, steps0, Commit(k, !err), State());
      if !err {
        forall reason | Blames(r, reason) ensures Refuses(exports[k], reason) {
          BlameCommits(before[k], r, reason);
        }
      }
      out := if err then Failed else out0;
    }

    /**
     The Secret a pass has just reported is not current any more at the time it asks to be woken, which is renewBefore
     ahead of the end of the lifetime it asked Omni for, or of the expiry stamped on the Secret it reuses.
     */
    ghost predicate DueWhenWoken(pass: Pass, home: Key, out: Outcome, rotated: bool)
      reads this
    {
      var lead := if pass.item.spec.renewBefore.Some? then pass.item.spec.renewBefore.value else 0;
      && out.RetryAfter? && out.delay > 0 && home in secrets
      && CurrentState(secrets[home], TargetSecretKey(pass.item.spec), SpecHash(pass.item, pass.clusterName),
                      pass.now + out.delay, pass.item.spec.renewBefore).None?
      && (rotated ==> out.delay == pass.item.spec.ttl - lead)
      && (!rotated ==> Annotation(secrets[home], EXPIRATION_ANNOTATION) == Stamp(pass.now + out.delay + lead))
    }

    /** The Secret write as the machine's step. */
    method Write(k: Key, pass: Pass, found: Option<Found>, kubeconfig: Bytes, e: Effect) returns (effect: Effect)
      requires WorkerOf(State(), k) == Writing(pass, found, kubeconfig)
      modifies this`secrets, this`workers
      ensures Enabled(old(State()), WriteSecret(k, effect)) && State() == Apply(old(State()), WriteSecret(k, effect))
      ensures effect == if WriteAccepted(old(State()), pass, found) then e else Refused
      ensures WorkerOf(State(), k) == if effect.Done? then Reporting(RotationReport(pass, kubeconfig)) else Idle
      ensures !effect.Refused? ==> WriteKey(pass, found) in secrets
      ensures !effect.Refused? ==>
        var base := if found.Some? then found.value.secret else NEW_SECRET;
        secrets[WriteKey(pass, found)] == Rewrite(base, pass.item, pass.clusterName, kubeconfig, pass.now)
    {
      hide Apply, Enabled, Rewrite, WriteAccepted, WriteKey, CoherentReport, Hash, RotationReport;
      ghost var before := State();
      effect := PutSecret(pass, found, kubeconfig, e);
      StepWrite(before, k, effect);
      workers := workers[k := if effect.Done? then Reporting(RotationReport(pass, kubeconfig)) else Idle];
    }

    /** The Secret write and the report of a rotation. */
    method WriteAndReport(k: Key, pass: Pass, found: Option<Found>, kubeconfig: Bytes, o: Foreign,
                          ghost ws0: seq<World>, ghost steps0: seq<Step>)
      returns (out: Outcome, exported: bool, ghost ws: seq<World>, ghost steps: seq<Step>)
      requires WorkerOf(State(), k) == Writing(pass, found, kubeconfig) && LifetimeAccepted(pass.item.spec)
      requires IsRun(ws0, steps0) && ws0[|steps0|] == State()
      modifies this`exports, this`secrets, this`workers
      ensures IsRun(ws, steps) && ws0 <= ws && ws[|steps|] == State()
      ensures WorkerOf(State(), k).Idle? && (out.RetryAfter? <==> exported)
      ensures exported ==> ReportedAt(ws, steps, k) && DueWhenWoken(pass, WriteKey(pass, found), out, true)
      ensures exported ==> steps == steps0 + [WriteSecret(k, Done)] + [Commit(k, true)]
      ensures exported <==> WriteAccepted(old(State()), pass, found) && o.write.Done? && o.commit && k in old(exports)
      ensures OnlyAt(old(exports), exports, k)
    {
      hide Apply, Enabled, Rewrite, WriteKey, CoherentReport, Hash, CurrentState, RotationReport, RequeueAfter, LifetimeAccepted;
      var effect := Write(k, pass, found, kubeconfig, o.write);
      ws, steps := Extend(ws0, steps0, WriteSecret(k, effect), State());
      if !effect.Done? {
        return Failed, false, ws, steps;
      }
      var r := RotationReport(pass, kubeconfig);
      var delay := RequeueAfter(pass.now, r.nextRotation);
      ExportRate.RotationReschedules(pass, kubeconfig, if found.Some? then found.value.secret else NEW_SECRET, pass.now + delay);
      SuccessExports(pass, kubeconfig);
      out, ws, steps := Report(k, r, RetryAfter(delay), o, ws, steps);
      exported := out.RetryAfter?;
    }

    /** generateKubeconfig, and what follows from it. */
    method Rotate(k: Key, pass: Pass, found: Option<Found>, o: Foreign, ghost ws0: seq<World>, ghost steps0: seq<Step>)
      returns (out: Outcome, exported: bool, ghost ws: seq<World>, ghost steps: seq<Step>)
      requires WorkerOf(State(), k) == Generating(pass, found) && LifetimeAccepted(pass.item.spec)
      requires IsRun(ws0, steps0) && ws0[|steps0|] == State()
      modifies this`exports, this`secrets, this`workers
      ensures IsRun(ws, steps) && ws0 <= ws && ws[|steps|] == State()
      ensures WorkerOf(State(), k).Idle? && (out.RetryAfter? <==> exported)
      ensures exported ==> o.kubeconfig.Some? && ReportedAt(ws, steps, k) && DueWhenWoken(pass, WriteKey(pass, found), out, true)
      ensures exported ==> steps == steps0 + [Generate(k, o.kubeconfig)] + [WriteSecret(k, Done)] + [Commit(k, true)]
      ensures exported <==> o.kubeconfig.Some? && WriteAccepted(old(State()), pass, found) && o.write.Done? && o.commit && k in old(exports)
      ensures OnlyAt(old(exports), exports, k)
    {
      hide Apply, Enabled, WriteKey, CoherentReport, DueWhenWoken, LifetimeAccepted;
      exported := false;
      StepGenerate(State(), k, o.kubeconfig);
      if o.kubeconfig.None? {
        var r := Failure(Some(pass.clusterName), Some(pass.connection), true, true, REASON_EXPORT_FAILED);
        workers := workers[k := Reporting(r)];
        ws, steps := Extend(ws0, steps0, Generate(k, None), State());
        out, ws, steps := Report(k, r, Failed, o, ws, steps);
        return;
      }
      var kubeconfig := o.kubeconfig.value;
      workers := workers[k := Writing(pass, found, kubeconfig)];
      ws, steps := Extend(ws0, steps0, Generate(k, o.kubeconfig), State());
      out, exported, ws, steps := WriteAndReport(k, pass, found, kubeconfig, o, ws, steps);
    }

    /** Lookup, then reuse or rotation. */
    method LookAndExport(k: Key, pass: Pass, o: Foreign, ghost ws0: seq<World>, ghost steps0: seq<Step>)
      returns (out: Outcome, exported: bool, ghost ws: seq<World>, ghost steps: seq<Step>)
      requires WorkerOf(State(), k) == Looking(pass) && LifetimeAccepted(pass.item.spec)
      requires IsRun(ws0, steps0) && ws0[|steps0|] == State()
      modifies this`exports, this`secrets, this`workers
      ensures IsRun(ws, steps) && ws0 <= ws && ws[|steps|] == State()
      ensures WorkerOf(State(), k).Idle? && (out.RetryAfter? <==> exported)
      ensures exported ==> ReportedAt(ws, steps, k)
      ensures exported ==> DueWhenWoken(pass, if LookupKey(pass.item) in old(secrets) then LookupKey(pass.item) else SpecTarget(pass.item), out, Reusable(old(State()), pass, o.verdict).None?)
      ensures out.RetryAfter? ==> out.delay > 0
      ensures exported && Reusable(old(State()), pass, o.verdict).None? ==> o.kubeconfig.Some?
      ensures exported ==> steps == steps0 + ExportPath(k, o, Reusable(old(State()), pass, o.verdict).Some?)
      ensures exported <==> (o.readSecret && o.commit && k in old(exports) &&
        (Reusable(old(State()), pass, o.verdict).Some? || (o.kubeconfig.Some? && o.write.Done? && Vacant(pass.item, old(secrets)))))
      ensures OnlyAt(old(exports), exports, k)
    {
      hide Apply, Enabled, CurrentState, RequeueAfter, LookupKey, SpecTarget, LifetimeAccepted, CoherentReport;
      exported := false;
      ghost var before := State();
      var inspected := Inspect(k, pass, o.readSecret, o.verdict);
      ws, steps := Extend(ws0, steps0, Lookup(k, o.readSecret, o.verdict), State());
      match inspected
      case Stop(stopped) => out := stopped;
      case Tell(r) =>
        var delay := RequeueAfter(pass.now, r.nextRotation);
        ReuseDue(before, pass, o.verdict, delay);
        out, ws, steps := Report(k, r, RetryAfter(delay), o, ws, steps);
        exported := out.RetryAfter?;
      case Go(found) =>
        out, exported, ws, steps := Rotate(k, pass, found, o, ws, steps);
    }

    /** The cleanup of the previous target as the machine's step. */
    method Clean(k: Key, pass: Pass, e: Effect) returns (cleaned: bool)
      requires WorkerOf(State(), k) == Cleaning(pass)
      modifies this`secrets, this`workers
      ensures Enabled(old(State()), Cleanup(k, e)) && State() == Apply(old(State()), Cleanup(k, e))
      ensures WorkerOf(State(), k) == if cleaned then Looking(pass) else Idle
      ensures cleaned <==> e.Done? || !CleanupNeeded(pass.item)
      ensures cleaned ==> secrets == CleanedSecrets(old(secrets), pass.item)
    {
      hide Apply, Enabled, CleanupDeletes;
      StepCleanup(State(), k, e);
      NothingToClean(pass.item, secrets);
      cleaned := DeletePreviousTargetSecret(pass.item, e);
      workers := workers[k := if cleaned then Looking(pass) else Idle];
    }

    /** The rest of Reconcile once its dependencies are resolved. */
    method ExportPass(k: Key, pass: Pass, o: Foreign, ghost ws0: seq<World>, ghost steps0: seq<Step>)
      returns (out: Outcome, exported: bool, ghost ws: seq<World>, ghost steps: seq<Step>)
      requires WorkerOf(State(), k) == Cleaning(pass) && LifetimeAccepted(pass.item.spec)
      requires IsRun(ws0, steps0) && ws0[|steps0|] == State()
      modifies this`exports, this`secrets, this`workers
      ensures IsRun(ws, steps) && ws0 <= ws && ws[|steps|] == State()
      ensures WorkerOf(State(), k).Idle? && (out.RetryAfter? <==> exported)
      ensures exported ==> ReportedAt(ws, steps, k)
      ensures
        var cleaned := old(State()).(secrets := CleanedSecrets(old(secrets), pass.item));
        var reuse := Reusable(cleaned, pass, o.verdict).Some?;
        && (exported ==> DueWhenWoken(pass, Home(pass.item, old(secrets)), out, !reuse))
        && (exported <==>
              && (o.cleanup.Done? || !CleanupNeeded(pass.item)) && o.readSecret && o.commit && k in old(exports)
              && (reuse || (o.kubeconfig.Some? && o.write.Done? && Vacant(pass.item, cleaned.secrets))))
      ensures OnlyAt(old(exports), exports, k)
      ensures out.RetryAfter? ==> out.delay > 0
      ensures
        var reuse := Reusable(old(State()).(secrets := CleanedSecrets(old(secrets), pass.item)), pass, o.verdict).Some?;
        exported ==> (reuse || o.kubeconfig.Some?) && steps == steps0 + [Cleanup(k, o.cleanup)] + ExportPath(k, o, reuse)
    {
      hide Apply, Enabled, CleanupDeletes, CurrentState, LookupKey, SpecTarget, LifetimeAccepted, DueWhenWoken, ExportPath;
      exported := false;
      ghost var before := State();
      var cleaned := Clean(k, pass, o.cleanup);
      ws, steps := Extend(ws0, steps0, Cleanup(k, o.cleanup), State());
      if !cleaned {
        return Failed, false, ws, steps;
      }
      SameLookup(before, State(), pass, o.verdict);
      hide Reusable;
      out, exported, ws, steps := LookAndExport(k, pass, o, ws, steps);
    }

    /** The rest of Reconcile over an accepted item. */
    method Proceed(k: Key, item: Export, o: Foreign, ghost ws0: seq<World>, ghost steps0: seq<Step>)
      returns (out: Outcome, exported: bool, ghost ws: seq<World>, ghost steps: seq<Step>)
      requires WorkerOf(State(), k) == Resolving(item) && k in exports && exports[k] == item && SpecAccepted(item.spec)
      requires |ws0| == 2 && steps0 == [Begin(k, true)] && IsRun(ws0, steps0) && ws0[1] == State() && State() == ws0[0].(workers := workers)
      modifies this`exports, this`secrets, this`workers
      ensures IsRun(ws, steps) && ws0 <= ws && ws[|steps|] == State()
      ensures WorkerOf(State(), k).Idle? && (out.RetryAfter? ==> out.delay > 0)
      ensures exported && Reuses(ws0[0], k, o.verdict).None? ==> o.kubeconfig.Some?
      ensures exported ==> DueWhenWoken(PassFor(ws0[0], k), Home(item, ws0[0].secrets), out, Reuses(ws0[0], k, o.verdict).None?)
      ensures exported <==> Reachable(old(State()), k) && GoesThrough(ws0[0], k, o)
      ensures OnlyAt(old(exports), exports, k)
      ensures !Reachable(old(State()), k) ==> secrets == old(secrets)
      ensures !Reachable(old(State()), k) && o.readCluster && o.commit ==>
        out == RetryAfter(RETRY_INTERVAL) && k in exports
        && Refuses(exports[k], Lacks(item, k, clusters))
      ensures exported ==> ExportsTruthfully(ws0[0], State(), k, o)
    {
      hide Apply, Enabled, SpecAccepted, LifetimeAccepted, Reusable, CleanedSecrets, Home, ExportsTruthfully, DueWhenWoken;
      hide OnlyAt, Occupied, Lacks;
      SameElsewhere(exports, k, item);
      exported := false;
      var resolved := Dependencies(k, item, o.readCluster);
      ws, steps := Extend(ws0, steps0, Resolve(k, o.readCluster), State());
      match resolved
      case Stop(stopped) => return stopped, false, ws, steps;
      case Tell(r) => out, ws, steps := Report(k, r, RetryAfter(RETRY_INTERVAL), o, ws, steps); return;
      case Go(pass) =>
      AcceptedLifetime(pass.item.spec);
      SamePass(ws0[0], State(), k, o.verdict);
      VacantIff(pass.item, secrets);
      out, exported, ws, steps := ExportPass(k, pass, o, ws, steps);
      if exported {
        if Reuses(ws[0], k, o.verdict).Some? {
          ReusePassTruthful(ws, steps, k, o);
        } else {
          RotatePassTruthful(ws, steps, k, o);
        }
      }
    }

    /**
     Reconcile, uninterrupted.  Its effect is a run of the machine from idle to idle.  A pass that
     exports asks to be woken when the Secret it reports is no longer current, and the status it leaves is
     truthful exactly when the recorded target was settled or the spec target already held what it obtains.
     */
    method Reconcile(k: Key, o: Foreign)
      returns (out: Outcome, exported: bool, ghost ws: seq<World>, ghost steps: seq<Step>)
      requires WorkerOf(State(), k).Idle?
      modifies this`exports, this`secrets, this`workers
      ensures IsRun(ws, steps) && ws[0] == old(State()) && ws[|steps|] == State()
      ensures WorkerOf(State(), k).Idle? && (out.RetryAfter? ==> out.delay > 0)
      ensures exported ==> k in old(exports) && (Reuses(old(State()), k, o.verdict).None? ==> o.kubeconfig.Some?)
      ensures exported ==>
        DueWhenWoken(PassFor(old(State()), k), Home(old(exports)[k], old(secrets)), out, Reuses(old(State()), k, o.verdict).None?)
      ensures exports - {k} == old(exports) - {k}
      ensures !o.readItem || k !in old(exports) ==> exports == old(exports) && secrets == old(secrets) && !exported
      ensures o.readItem && k in old(exports) && old(exports)[k].deleting ==> LetsGo(old(State()), State(), k, o, out)
      ensures o.readItem && k in old(exports) && !old(exports)[k].deleting ==> Keeps(old(State()), State(), k, o, out, exported)
      ensures exported ==> ExportsTruthfully(old(State()), State(), k, o)
    {
      hide Apply, Enabled, DueWhenWoken, ExportsTruthfully, SpecAccepted, Reusable, CleanedSecrets, Home;
      exported := false;
      ws, steps := [State()], [];
      var started := Start(k, o.readItem);
      ws, steps := Extend(ws, steps, Begin(k, o.readItem), State());
      match started
      case Stop(stopped) => return stopped, false, ws, steps;
      case Tell(r) => out, ws, steps := Report(k, r, Finished, o, ws, steps); return;
      case Delete(item) => out, ws, steps := ReconcileDelete(k, item, o, ws, steps); return;
      case Go(item) => out, exported, ws, steps := Proceed(k, item, o, ws, steps);
    }
  }

  lemma SameElsewhere(exports: map<Key, Export>, k: Key, x: Export)
    requires k in exports
    ensures OnlyAt(exports, exports[k := x], k) && OnlyAt(exports, exports, k)
  {
  }

  lemma AcceptedLifetime(spec: Spec)
    requires SpecAccepted(spec)
    ensures LifetimeAccepted(spec)
  {
  }

  lemma SuccessExports(pass: Pass, kubeconfig: Bytes)
    ensures RotationReport(pass, kubeconfig).exported
  {
  }

  lemma ReuseDue(w: World, pass: Pass, verdict: Verdict, delay: Nanos)
    requires Reusable(w, pass, verdict).Some? && delay == RequeueAfter(pass.now, Some(Reusable(w, pass, verdict).value.nextRotation))
    requires LifetimeAccepted(pass.item.spec)
    ensures delay > 0 && LookupKey(pass.item) in w.secrets
    ensures
      var lead := if pass.item.spec.renewBefore.Some? then pass.item.spec.renewBefore.value else 0;
      Annotation(w.secrets[LookupKey(pass.item)], EXPIRATION_ANNOTATION) == Stamp(pass.now + delay + lead)
    ensures CurrentState(w.secrets[LookupKey(pass.item)], TargetSecretKey(pass.item.spec), SpecHash(pass.item, pass.clusterName),
                         pass.now + delay, pass.item.spec.renewBefore).None?
  {
    ExportRate.ReuseReschedules(w.secrets[LookupKey(pass.item)], TargetSecretKey(pass.item.spec), SpecHash(pass.item, pass.clusterName),
                                pass.now, pass.item.spec.renewBefore, pass.now + delay);
  }

  lemma BlameCommits(latest: Export, r: Report, reason: string)
    requires Blames(r, reason)
    ensures Refuses(latest.(status := CommittedStatus(latest, r)), reason)
  {
  }

  lemma VacantIff(item: Export, secrets: map<Key, Secret>)
    ensures Vacant(item, CleanedSecrets(secrets, item)) <==> !Occupied(item, secrets)
  {
    hide IsOwnedSecret, LookupKey;
  }

  lemma NothingToClean(item: Export, secrets: map<Key, Secret>)
    ensures !CleanupNeeded(item) ==> CleanedSecrets(secrets, item) == secrets
  {
  }

  /** The steps of a pass from its lookup on, if it succeeds. */
  ghost function ExportPath(k: Key, o: Foreign, reuse: bool): seq<Step> {
    [Lookup(k, true, o.verdict)] + (if reuse then [] else [Generate(k, o.kubeconfig), WriteSecret(k, Done)]) + [Commit(k, true)]
  }

  /** The last step commits a report of success. */
  ghost predicate ReportedAt(ws: seq<World>, steps: seq<Step>, k: Key) {
    && |ws| == |steps| + 1 > 1
    && var w := ws[|steps| - 1];
    && k in w.workers && w.workers[k].Reporting? && w.workers[k].report.exported
  }

  /** The kubeconfig an uninterrupted pass obtains: what the recorded Secret holds if that is current, else Omni's. */
  ghost function Obtains(w: World, k: Key, o: Foreign): Bytes
    requires k in w.exports
  {
    var item := w.exports[k];
    if Reuses(w, k, o.verdict).Some? then
      if LookupKey(item) in w.secrets then Datum(w.secrets[LookupKey(item)], TargetSecretKey(item.spec)) else []
    else if o.kubeconfig.Some? then o.kubeconfig.value else []
  }

  /**
   The status a pass leaves is truthful exactly when, before it, the recorded target was settled or the spec
   target already held what the pass obtains.
   */
  ghost predicate ExportsTruthfully(before: World, after: World, k: Key, o: Foreign) {
    && k in before.exports && k in after.exports
    && var item := before.exports[k];
    && (Truthful(after, k) <==>
          || RecordedTargetSettled(item, before.secrets)
          || Holds(before.secrets, SpecTarget(item), TargetSecretKey(item.spec), Some(Hash(Obtains(before, k, o)))))
  }

  lemma SameLookup(w: World, v: World, pass: Pass, verdict: Verdict)
    requires v.secrets == CleanedSecrets(w.secrets, pass.item)
    ensures Reusable(v, pass, verdict) == Reusable(w.(secrets := CleanedSecrets(w.secrets, pass.item)), pass, verdict)
  {
    hide CurrentState, CleanedSecrets;
  }

  lemma SamePass(w: World, v: World, k: Key, verdict: Verdict)
    requires k in w.exports && v == w.(workers := v.workers)
    ensures PassFor(v, k) == PassFor(w, k)
    ensures Reusable(v.(secrets := CleanedSecrets(v.secrets, v.exports[k])), PassFor(v, k), verdict) == Reuses(w, k, verdict)
  {
    hide CurrentState, CleanedSecrets;
  }

  lemma OwnIsBusy(w: World, s: Step, k: Key)
    requires Enabled(w, s) && Actor(s) == Some(k) && !s.Begin?
    ensures !WorkerOf(w, k).Idle?
  {
  }

  /** An uninterrupted pass is a pass of its run that nobody disturbs. */
  lemma Uninterrupted(ws: seq<World>, steps: seq<Step>, k: Key)
    requires IsRun(ws, steps) && |steps| > 1 && steps[0] == Begin(k, true) && k in ws[0].exports && k in ws[|steps| - 1].exports
    requires forall j :: 0 < j < |steps| ==> Actor(steps[j]) == Some(k) && !steps[j].Begin?
    requires steps[|steps| - 1] == Commit(k, true) && ReportedAt(ws, steps, k)
    ensures
      var c := |steps| - 1;
      Exports(ws, steps, k, 0, c) && SecretsLeft(ws, steps, k, 0, c) && SpecLeft(ws, steps, k, 0, c)
  {
    hide Apply, Enabled;
    forall j | 0 < j <= |steps| - 1 ensures !WorkerOf(ws[j], k).Idle? {
      OwnIsBusy(ws[j], steps[j], k);
    }
  }

  lemma CommitStored(w: World, k: Key)
    requires Enabled(w, Commit(k, true))
    ensures k in w.exports
  {
  }

  lemma ReusePassTruthful(ws: seq<World>, steps: seq<Step>, k: Key, o: Foreign)
    requires IsRun(ws, steps) && k in ws[0].exports && ReportedAt(ws, steps, k) && Reuses(ws[0], k, o.verdict).Some?
    requires steps == [Begin(k, true), Resolve(k, true), Cleanup(k, o.cleanup), Lookup(k, true, o.verdict), Commit(k, true)]
    ensures ExportsTruthfully(ws[0], ws[5], k, o)
  {
    hide Apply, Enabled, Truthful, RecordedTargetSettled, Holds, SpecTarget, Obtained, Exports, SecretsLeft, SpecLeft, LookupKey, Reuses;
    CommitStored(ws[4], k);
    Uninterrupted(ws, steps, k);
    PassTruthful(ws, steps, k, 0, 4);
    ReuseObtains(ws, steps, k, 0, 4);
  }

  lemma RotatePassTruthful(ws: seq<World>, steps: seq<Step>, k: Key, o: Foreign)
    requires IsRun(ws, steps) && k in ws[0].exports && ReportedAt(ws, steps, k) && Reuses(ws[0], k, o.verdict).None? && o.kubeconfig.Some?
    requires steps == [Begin(k, true), Resolve(k, true), Cleanup(k, o.cleanup), Lookup(k, true, o.verdict), Generate(k, o.kubeconfig),
                       WriteSecret(k, Done), Commit(k, true)]
    ensures ExportsTruthfully(ws[0], ws[7], k, o)
  {
    hide Apply, Enabled, Truthful, RecordedTargetSettled, Holds, SpecTarget, Exports, SecretsLeft, SpecLeft, LookupKey, Reuses;
    CommitStored(ws[6], k);
    Uninterrupted(ws, steps, k);
    PassTruthful(ws, steps, k, 0, 6);
    assert Obtained(ws, steps, k, 0, 6) == Obtained(ws, steps, k, 0, 5) == o.kubeconfig.value;
  }
}
