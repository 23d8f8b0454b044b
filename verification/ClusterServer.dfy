/**
 The OmniCluster reconciler as the program runs it: conditions are upserted in place, and an
 uninterrupted Reconcile is a run of the status machine.
 */
module ClusterServer {
  import opened Kube
  import opened ClusterStatus
  import opened ClusterReports

  const DEFAULT_SYNC_INTERVAL: Nanos := 300 * SECOND

  datatype Outcome = Finished | RetryNow | After(delay: Nanos) | Failed

  /** How the API server and Omni answer during one pass. */
  datatype Foreign = Foreign(endpoint: Option<string>, selection: Selection, sync: Effect, statusRead: bool,
                             delete: Effect, commit: bool, release: bool)

  /** syncInterval: never zero, so a pass that reports always comes back. */
  function SyncInterval(requested: Nanos): (r: Nanos)
    ensures r > 0
    ensures requested > 0 ==> r == requested
    ensures requested <= 0 ==> r == 300 * 1_000_000_000
  {
    if requested > 0 then requested else DEFAULT_SYNC_INTERVAL
  }

  lemma Extend(ws: seq<World>, steps: seq<Step>, s: Step, v: World) returns (vs: seq<World>, ss: seq<Step>)
    requires IsRun(ws, steps) && Enabled(ws[|steps|], s) && v == Apply(ws[|steps|], s)
    ensures IsRun(vs, ss) && vs[0] == ws[0] && vs[|ss|] == v && ss == steps + [s]
  {
    hide Apply, Enabled;
    vs, ss := ws + [v], steps + [s];
    forall i | 0 <= i < |ss| ensures Enabled(vs[i], ss[i]) && vs[i + 1] == Apply(vs[i], ss[i]) {
      if i < |steps| {
        assert vs[i] == ws[i] && vs[i + 1] == ws[i + 1] && ss[i] == steps[i];
      }
    }
  }

  /** The step that ends a pass over a held cluster, given the answers it gets. */
  function Ending(x: Cluster, o: Foreign): Step {
    if x.deleting then DeleteRemote(o.endpoint, o.delete)
    else if x.spec.suspend then Begin
    else if o.endpoint.None? then Connect(None)
    else if !o.selection.Valid? then Render(o.selection)
    else if !o.sync.Done? then Sync(o.sync)
    else Inspect(o.statusRead)
  }

  function Endpoint(o: Foreign): string {
    if o.endpoint.Some? then o.endpoint.value else ""
  }

  function TemplateFor(x: Cluster, selection: Selection): Template {
    Template(x.spec, if selection.Invalid? || selection.Valid? then selection.children else "")
  }

  /** The report on x, if the write goes through; nothing else of the object changes. */
  ghost predicate Tells(x: Cluster, after: Option<Cluster>, o: Foreign) {
    && after.Some? && after.value.(status := x.status) == x
    && (!o.commit ==> after.value == x)
    && (o.commit ==> Says(x, Ending(x, o), x.status, after.value.status, Endpoint(o), TemplateFor(x, o.selection)))
  }

  /**
   A pass over a cluster under deletion: one that is not held is left alone; an Orphan one is released and stays in Omni;
   any other is deleted from Omni first, through its connection, and kept with a report if that fails.
   */
  ghost predicate Ends(x: Cluster, before: Option<Template>, after: World, o: Foreign, out: Outcome) {
    if !x.finalizer then after.cluster == Some(x) && after.omni == before && out.Finished?
    else if x.spec.orphan then
      && after.omni == before && (out.Finished? <==> o.release) && (out.Failed? <==> !o.release)
      && after.cluster == if o.release then None else Some(x)
    else
      var deleted := o.endpoint.Some? && o.delete.Done?;
      && after.omni == (if o.endpoint.Some? && !o.delete.Refused? then None else before)
      && (out.Finished? <==> deleted && o.release) && (out.Failed? <==> !(deleted && o.release))
      && (deleted ==> after.cluster == if o.release then None else Some(x))
      && (!deleted ==> Tells(x, after.cluster, o))
  }

  /**
   A pass over a live cluster: the finalizer first; then nothing remote unless it is not suspended, its connection is there
   and its template is valid, and a report in every case.
   */
  ghost predicate Lives(x: Cluster, before: Option<Template>, after: World, o: Foreign, out: Outcome) {
    if !x.finalizer then after.cluster == Some(x.(finalizer := true)) && after.omni == before && out.RetryNow?
    else
      var hands := !x.spec.suspend && o.endpoint.Some? && o.selection.Valid?;
      && after.omni == (if hands && !o.sync.Refused? then Some(TemplateFor(x, o.selection)) else before)
      && (out.After? <==> o.commit && (hands ==> o.sync.Done?)) && (out.Failed? <==> !out.After?)
      && Tells(x, after.cluster, o)
  }

  class Server {
    var cluster: Option<Cluster>
    var omni: Option<Template>
    ghost var worker: Worker

    constructor (x: Cluster)
      ensures cluster == Some(x) && omni == None && worker == Idle
    {
      cluster, omni, worker := Some(x), None, Idle;
    }

    ghost function State(): World
      reads this
    {
      World(cluster, omni, worker)
    }

    method SetCondition(condition: string, holds: bool, generation: int, reason: string)
      requires cluster.Some?
      modifies this`cluster
      ensures cluster == Some(old(cluster.value).(status := Set(old(cluster.value.status), condition, holds, generation, reason)))
    {
      var x := cluster.value;
      cluster := Some(x.(status := x.status.(conditions := x.status.conditions[condition := Condition(holds, generation, reason)])));
    }

    method SetRendered(x: Cluster, endpoint: string, t: Template)
      requires cluster.Some?
      modifies this`cluster
      ensures cluster == Some(old(cluster.value).(status := Rendered(old(cluster.value.status), x, endpoint, t)))
    {
      var status := cluster.value.status;
      status := status.(observedGeneration := x.generation, connectionRef := x.spec.connectionRef, endpoint := endpoint);
      status := status.(clusterName := ClusterName(x), template := Some(t));
      cluster := Some(cluster.value.(status := status));
    }

    /** updateClusterStatus with the closure that each way out of a pass hands it. */
    method UpdateStatus(x: Cluster, r: Report, ok: bool) returns (err: bool)
      requires worker == Reporting(x, r)
      modifies this
      ensures err <==> !ok || old(cluster).None?
      ensures Enabled(old(State()), Commit(!err)) && State() == Apply(old(State()), Commit(!err)) && worker == Idle
    {
      worker := Idle;
      if !ok || cluster.None? {
        return true;
      }
      var g := x.generation;
      match r {
        case Suspended =>
          cluster := Some(cluster.value.(status := cluster.value.status.(observedGeneration := g)));
          SetCondition(CONDITION_READY, false, g, REASON_SUSPENDED);
        case Unfit(condition, reason) =>
          cluster := Some(cluster.value.(status := cluster.value.status.(observedGeneration := g, clusterName := ClusterName(x))));
          SetCondition(condition, false, g, reason);
          SetCondition(CONDITION_READY, false, g, reason);
        case InvalidTemplate(endpoint, t) =>
          SetRendered(x, endpoint, t);
          SetCondition(CONDITION_VALIDATED, false, g, REASON_VALIDATION_FAILED);
          SetCondition(CONDITION_READY, false, g, REASON_VALIDATION_FAILED);
        case SyncFailed(endpoint, t) =>
          SetRendered(x, endpoint, t);
          SetCondition(CONDITION_VALIDATED, true, g, REASON_VALIDATED);
          SetCondition(CONDITION_SYNCED, false, g, REASON_SYNC_FAILED);
          SetCondition(CONDITION_READY, false, g, REASON_SYNC_FAILED);
        case Synced(endpoint, t, statusRead) =>
          SetRendered(x, endpoint, t);
          SetCondition(CONDITION_VALIDATED, true, g, REASON_VALIDATED);
          SetCondition(CONDITION_SYNCED, true, g, REASON_SYNCED);
          if statusRead {
            SetCondition(CONDITION_READY, true, g, REASON_SYNCED);
          } else {
            SetCondition(CONDITION_READY, false, g, REASON_STATUS_FAILED);
          }
        case DeleteFailed =>
          SetCondition(CONDITION_READY, false, g, REASON_DELETE_FAILED);
      }
      return false;
    }

    method Tell(x: Cluster, r: Report, out0: Outcome, ok: bool, ghost ws0: seq<World>, ghost steps0: seq<Step>)
      returns (out: Outcome, ghost ws: seq<World>, ghost steps: seq<Step>)
      requires worker == Reporting(x, r) && IsRun(ws0, steps0) && ws0[|steps0|] == State()
      modifies this
      ensures IsRun(ws, steps) && ws[0] == ws0[0] && ws[|steps|] == State() && worker == Idle
      ensures out == if ok && old(cluster).Some? then out0 else Failed
      ensures omni == old(omni)
      ensures !ok || old(cluster).None? ==> cluster == old(cluster)
      ensures ok && old(cluster).Some? ==>
        cluster == Some(old(cluster).value.(status := Reported(old(cluster).value.status, x, r)))
    {
      hide Reported;
      var err := UpdateStatus(x, r, ok);
      ws, steps := Extend(ws0, steps0, Commit(!err), State());
      out := if err then Failed else out0;
    }

    /** reconcileDelete after its finalizer and policy checks. */
    method ReconcileDelete(x: Cluster, o: Foreign, ghost ws0: seq<World>, ghost steps0: seq<Step>)
      returns (out: Outcome, ghost ws: seq<World>, ghost steps: seq<Step>)
      requires worker == Deleting(x) && cluster == Some(x) && IsRun(ws0, steps0) && ws0[|steps0|] == State()
      requires x.deleting && x.finalizer && !x.spec.orphan
      modifies this
      ensures IsRun(ws, steps) && ws[0] == ws0[0] && ws[|steps|] == State() && worker == Idle
      ensures Ends(x, old(omni), State(), o, out)
    {
      hide Reported, Says;
      if o.endpoint.None? {
        var r := Unfit(CONDITION_READY, REASON_DELETE_FAILED);
        worker := Reporting(x, r);
        ws, steps := Extend(ws0, steps0, DeleteRemote(None, o.delete), State());
        ReportSays(x, Ending(x, o), Endpoint(o), TemplateFor(x, o.selection), r, x.status);
        out, ws, steps := Tell(x, r, Failed, o.commit, ws, steps);
        return;
      }
      if !o.delete.Refused? {
        omni := None;
      }
      if !o.delete.Done? {
        worker := Reporting(x, DeleteFailed);
        ws, steps := Extend(ws0, steps0, DeleteRemote(o.endpoint, o.delete), State());
        ReportSays(x, Ending(x, o), Endpoint(o), TemplateFor(x, o.selection), DeleteFailed, x.status);
        out, ws, steps := Tell(x, DeleteFailed, Failed, o.commit, ws, steps);
        return;
      }
      worker := Releasing(x);
      ws, steps := Extend(ws0, steps0, DeleteRemote(o.endpoint, o.delete), State());
      out, ws, steps := RemoveFinalizers(x, o, ws, steps);
    }

    method RemoveFinalizers(x: Cluster, o: Foreign, ghost ws0: seq<World>, ghost steps0: seq<Step>)
      returns (out: Outcome, ghost ws: seq<World>, ghost steps: seq<Step>)
      requires worker == Releasing(x) && cluster == Some(x) && IsRun(ws0, steps0) && ws0[|steps0|] == State()
      modifies this
      ensures IsRun(ws, steps) && ws[0] == ws0[0] && ws[|steps|] == State() && worker == Idle && omni == old(omni)
      ensures out == (if o.release then Finished else Failed) && cluster == if o.release then None else Some(x)
    {
      worker := Idle;
      if o.release {
        cluster := None;
      }
      ws, steps := Extend(ws0, steps0, Release(o.release), State());
      out := if o.release then Finished else Failed;
    }

    /** Sync the template, read the cluster's status back, report. */
    method SyncAndTell(x: Cluster, t: Template, delay: Nanos, o: Foreign,
                       ghost ws0: seq<World>, ghost steps0: seq<Step>)
      returns (out: Outcome, ghost ws: seq<World>, ghost steps: seq<Step>)
      requires worker == Syncing(x, Endpoint(o), t) && cluster == Some(x) && IsRun(ws0, steps0) && ws0[|steps0|] == State()
      requires Live(x) && o.endpoint.Some? && o.selection.Valid? && t == TemplateFor(x, o.selection)
      modifies this
      ensures IsRun(ws, steps) && ws[0] == ws0[0] && ws[|steps|] == State() && worker == Idle
      ensures Lives(x, old(omni), State(), o, out) && (out.After? ==> out.delay == delay)
      ensures out.After? ==> omni == Some(t) == cluster.value.status.template
    {
      hide Reported, Says;
      var endpoint := Endpoint(o);
      ReportedFields(x.status, x, Synced(endpoint, t, o.statusRead));
      if !o.sync.Refused? {
        omni := Some(t);
      }
      if !o.sync.Done? {
        worker := Reporting(x, SyncFailed(endpoint, t));
        ws, steps := Extend(ws0, steps0, Sync(o.sync), State());
        ReportSays(x, Ending(x, o), endpoint, t, SyncFailed(endpoint, t), x.status);
        out, ws, steps := Tell(x, SyncFailed(endpoint, t), Failed, o.commit, ws, steps);
        return;
      }
      worker := Inspecting(x, endpoint, t);
      ws, steps := Extend(ws0, steps0, Sync(o.sync), State());
      worker := Reporting(x, Synced(endpoint, t, o.statusRead));
      ws, steps := Extend(ws, steps, Inspect(o.statusRead), State());
      ReportSays(x, Ending(x, o), endpoint, t, Synced(endpoint, t, o.statusRead), x.status);
      out, ws, steps := Tell(x, Synced(endpoint, t, o.statusRead), After(delay), o.commit, ws, steps);
    }

    /** The reads that a live, finalized, unsuspended cluster needs, then sync and report. */
    method Proceed(x: Cluster, delay: Nanos, o: Foreign, ghost ws0: seq<World>, ghost steps0: seq<Step>)
      returns (out: Outcome, ghost ws: seq<World>, ghost steps: seq<Step>)
      requires worker == Connecting(x) && cluster == Some(x) && IsRun(ws0, steps0) && ws0[|steps0|] == State() && Live(x)
      modifies this
      ensures IsRun(ws, steps) && ws[0] == ws0[0] && ws[|steps|] == State() && worker == Idle
      ensures Lives(x, old(omni), State(), o, out)
      ensures out.After? ==> out.delay == delay && Describes()
    {
      hide Reported, Says;
      if o.endpoint.None? {
        var r := Unfit(CONDITION_SYNCED, REASON_MISSING_CONNECTION);
        worker := Reporting(x, r);
        ws, steps := Extend(ws0, steps0, Connect(None), State());
        ReadyOnlyIfSynced(x.status, x, r);
        ReportSays(x, Ending(x, o), Endpoint(o), TemplateFor(x, o.selection), r, x.status);
        out, ws, steps := Tell(x, r, After(delay), o.commit, ws, steps);
        return;
      }
      var endpoint := o.endpoint.value;
      worker := Rendering(x, endpoint);
      ws, steps := Extend(ws0, steps0, Connect(o.endpoint), State());
      worker := RenderResult(x, endpoint, o.selection);
      ws, steps := Extend(ws, steps, Render(o.selection), State());
      match o.selection
      case Valid(children) =>
        out, ws, steps := SyncAndTell(x, Template(x.spec, children), delay, o, ws, steps);
      case Invalid(children) =>
        var r := InvalidTemplate(endpoint, Template(x.spec, children));
        ReadyOnlyIfSynced(x.status, x, r);
        ReportSays(x, Ending(x, o), Endpoint(o), TemplateFor(x, o.selection), r, x.status);
        out, ws, steps := Tell(x, r, After(delay), o.commit, ws, steps);
      case MissingTemplate =>
        var r := Unfit(CONDITION_VALIDATED, REASON_MISSING_TEMPLATE);
        ReadyOnlyIfSynced(x.status, x, r);
        ReportSays(x, Ending(x, o), Endpoint(o), TemplateFor(x, o.selection), r, x.status);
        out, ws, steps := Tell(x, r, After(delay), o.commit, ws, steps);
      case RenderFailed =>
        var r := Unfit(CONDITION_VALIDATED, REASON_VALIDATION_FAILED);
        ReadyOnlyIfSynced(x.status, x, r);
        ReportSays(x, Ending(x, o), Endpoint(o), TemplateFor(x, o.selection), r, x.status);
        out, ws, steps := Tell(x, r, After(delay), o.commit, ws, steps);
    }

    /** If the stored cluster is ready, Omni holds the template its status describes, rendered from its spec. */
    ghost predicate Describes()
      reads this
    {
      cluster.Some? && Holds(cluster.value.status, CONDITION_READY) ==>
        omni.Some? && cluster.value.status.template == omni && omni.value.spec == cluster.value.spec
    }

    /**
     Reconcile, uninterrupted: a run of the machine from idle to idle.  A pass that schedules the next
     one waits a positive time and leaves a status that, if ready, describes what Omni now holds; a
     pass that ends for good has either nothing to do or left neither finalizer nor remote cluster.
     */
    method Reconcile(syncInterval: Nanos, o: Foreign) returns (out: Outcome, ghost ws: seq<World>, ghost steps: seq<Step>)
      requires worker == Idle
      modifies this
      ensures IsRun(ws, steps) && ws[0] == old(State()) && ws[|steps|] == State() && worker == Idle
      ensures out.After? ==> out.delay > 0 && cluster.Some? && Describes()
      ensures out.After? ==> out.delay == if syncInterval > 0 then syncInterval else 300 * 1_000_000_000
      ensures out.Finished? && old(cluster).Some? && old(cluster).value.finalizer && !old(cluster).value.spec.orphan ==>
                cluster.None? && omni.None?
      ensures old(cluster).None? ==> out.Finished? && cluster.None? && omni == old(omni)
      ensures old(cluster).Some? && old(cluster).value.deleting ==> Ends(old(cluster).value, old(omni), State(), o, out)
      ensures old(cluster).Some? && !old(cluster).value.deleting ==> Lives(old(cluster).value, old(omni), State(), o, out)
    {
      hide Reported, Says;
      ws, steps := [State()], [];
      if cluster.None? {
        ws, steps := Extend(ws, steps, Begin, State());
        return Finished, ws, steps;
      }
      var x := cluster.value;
      if x.deleting {
        if !x.finalizer {
          ws, steps := Extend(ws, steps, Begin, State());
          return Finished, ws, steps;
        }
        if x.spec.orphan {
          worker := Releasing(x);
          ws, steps := Extend(ws, steps, Begin, State());
          out, ws, steps := RemoveFinalizers(x, o, ws, steps);
          return;
        }
        worker := Deleting(x);
        ws, steps := Extend(ws, steps, Begin, State());
        out, ws, steps := ReconcileDelete(x, o, ws, steps);
        return;
      }
      if !x.finalizer {
        cluster := Some(x.(finalizer := true));
        ws, steps := Extend(ws, steps, Begin, State());
        return RetryNow, ws, steps;
      }
      var delay := SyncInterval(syncInterval);
      if x.spec.suspend {
        worker := Reporting(x, Suspended);
        ws, steps := Extend(ws, steps, Begin, State());
        ReadyOnlyIfSynced(x.status, x, Suspended);
        ReportSays(x, Ending(x, o), Endpoint(o), TemplateFor(x, o.selection), Suspended, x.status);
        out, ws, steps := Tell(x, Suspended, After(delay), o.commit, ws, steps);
        return;
      }
      worker := Connecting(x);
      ws, steps := Extend(ws, steps, Begin, State());
      out, ws, steps := Proceed(x, delay, o, ws, steps);
    }
  }
}
