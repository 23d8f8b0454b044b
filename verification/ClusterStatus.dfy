/**
 What an OmniCluster's status says, over every run of its reconciler.

 A pass works on the object it read; each report is applied to the status stored when it commits.
 Spec edits and the deletion mark may fall between any two steps.  Rendering is injective on the
 spec and the children it was given, so a template stands for its own hash.
 */
module ClusterStatus {
  import opened Kube

  const REASON_SUSPENDED := "Suspended"
  const REASON_MISSING_CONNECTION := "MissingConnection"
  const REASON_MISSING_TEMPLATE := "MissingTemplate"
  const REASON_VALIDATION_FAILED := "ValidationFailed"
  const REASON_VALIDATED := "Validated"
  const REASON_SYNC_FAILED := "SyncFailed"
  const REASON_SYNCED := "Synced"
  const REASON_STATUS_FAILED := "StatusFailed"
  const REASON_DELETE_FAILED := "DeleteFailed"

  datatype Spec = Spec(connectionRef: string, clusterName: string, suspend: bool, orphan: bool, rest: string)

  datatype Template = Template(spec: Spec, children: string)

  datatype Status = Status(observedGeneration: int, connectionRef: string, endpoint: string, clusterName: string,
                           template: Option<Template>, conditions: Conditions)

  datatype Cluster = Cluster(name: string, generation: int, deleting: bool, finalizer: bool, spec: Spec, status: Status)

  /** omnitemplate.ClusterName. */
  function ClusterName(x: Cluster): string {
    if x.spec.clusterName != "" then x.spec.clusterName else x.name
  }

  datatype Report =
    | Suspended
    | Unfit(condition: string, reason: string)
    | InvalidTemplate(endpoint: string, template: Template)
    | SyncFailed(endpoint: string, template: Template)
    | Synced(endpoint: string, template: Template, statusRead: bool)
    | DeleteFailed

  /** setRenderedStatus. */
  function Rendered(s: Status, x: Cluster, endpoint: string, t: Template): Status {
    Status(x.generation, x.spec.connectionRef, endpoint, ClusterName(x), Some(t), s.conditions)
  }

  function Set(s: Status, condition: string, holds: bool, generation: int, reason: string): Status {
    s.(conditions := s.conditions[condition := Condition(holds, generation, reason)])
  }

  /** The mutation of the stored status that each way out of a pass over x commits. */
  function Reported(s: Status, x: Cluster, r: Report): Status {
    var g := x.generation;
    match r
    case Suspended => Set(s.(observedGeneration := g), CONDITION_READY, false, g, REASON_SUSPENDED)
    case Unfit(condition, reason) =>
      Set(Set(s.(observedGeneration := g, clusterName := ClusterName(x)), condition, false, g, reason),
          CONDITION_READY, false, g, reason)
    case InvalidTemplate(endpoint, t) =>
      Set(Set(Rendered(s, x, endpoint, t), CONDITION_VALIDATED, false, g, REASON_VALIDATION_FAILED),
          CONDITION_READY, false, g, REASON_VALIDATION_FAILED)
    case SyncFailed(endpoint, t) =>
      Set(Set(Set(Rendered(s, x, endpoint, t), CONDITION_VALIDATED, true, g, REASON_VALIDATED),
              CONDITION_SYNCED, false, g, REASON_SYNC_FAILED),
          CONDITION_READY, false, g, REASON_SYNC_FAILED)
    case Synced(endpoint, t, statusRead) =>
      Set(Set(Set(Rendered(s, x, endpoint, t), CONDITION_VALIDATED, true, g, REASON_VALIDATED),
              CONDITION_SYNCED, true, g, REASON_SYNCED),
          CONDITION_READY, statusRead, g, if statusRead then REASON_SYNCED else REASON_STATUS_FAILED)
    case DeleteFailed => Set(s, CONDITION_READY, false, g, REASON_DELETE_FAILED)
  }

  predicate Holds(s: Status, condition: string) {
    condition in s.conditions && s.conditions[condition].holds
  }

  predicate HoldsAt(s: Status, condition: string, generation: int) {
    Holds(s, condition) && s.conditions[condition].generation == generation
  }

  // ---------------------------------------------------------------- the machine

  datatype Worker =
    | Idle
    | Connecting(x: Cluster)
    | Rendering(x: Cluster, endpoint: string)
    | Syncing(x: Cluster, endpoint: string, template: Template)
    | Inspecting(x: Cluster, endpoint: string, template: Template)
    | Reporting(x: Cluster, report: Report)
    | Deleting(x: Cluster)
    | Releasing(x: Cluster)

  /** The stored object, what Omni last took from it, and its worker. */
  datatype World = World(cluster: Option<Cluster>, omni: Option<Template>, worker: Worker)

  datatype Selection = MissingTemplate | RenderFailed | Invalid(children: string) | Valid(children: string)

  datatype Step =
    // environment
    | EditSpec(spec: Spec)
    | MarkDeleted
    // the worker
    | Begin
    | Connect(endpoint: Option<string>)
    | Render(selection: Selection)
    | Sync(effect: Effect)
    | Inspect(ok: bool)
    | Commit(ok: bool)
    | DeleteRemote(endpoint: Option<string>, effect: Effect)
    | Release(ok: bool)

  predicate Enabled(w: World, s: Step) {
    match s
    case EditSpec(_) => w.cluster.Some?
    case MarkDeleted => w.cluster.Some?
    case Begin => w.worker.Idle?
    case Connect(_) => w.worker.Connecting?
    case Render(_) => w.worker.Rendering?
    case Sync(_) => w.worker.Syncing?
    case Inspect(_) => w.worker.Inspecting?
    case Commit(ok) => w.worker.Reporting? && (ok ==> w.cluster.Some?)
    case DeleteRemote(_, _) => w.worker.Deleting?
    case Release(ok) => w.worker.Releasing? && (ok ==> w.cluster == Some(w.worker.x))
  }

  /** A spec edit bumps the generation; marking an object without finalizer removes it. */
  function Edited(x: Cluster, spec: Spec): Cluster {
    if spec == x.spec then x else x.(spec := spec, generation := x.generation + 1)
  }

  function Marked(x: Cluster): Option<Cluster> {
    if x.finalizer then Some(x.(deleting := true)) else None
  }

  function Begun(w: World): World {
    if w.cluster.None? then w
    else
      var x := w.cluster.value;
      if x.deleting then
        if !x.finalizer then w else w.(worker := if x.spec.orphan then Releasing(x) else Deleting(x))
      else if !x.finalizer then w.(cluster := Some(x.(finalizer := true)))
      else if x.spec.suspend then w.(worker := Reporting(x, Suspended))
      else w.(worker := Connecting(x))
  }

  function RenderResult(x: Cluster, endpoint: string, selection: Selection): Worker {
    match selection
    case MissingTemplate => Reporting(x, Unfit(CONDITION_VALIDATED, REASON_MISSING_TEMPLATE))
    case RenderFailed => Reporting(x, Unfit(CONDITION_VALIDATED, REASON_VALIDATION_FAILED))
    case Invalid(children) => Reporting(x, InvalidTemplate(endpoint, Template(x.spec, children)))
    case Valid(children) => Syncing(x, endpoint, Template(x.spec, children))
  }

  function Apply(w: World, s: Step): World
    requires Enabled(w, s)
  {
    match s
    case EditSpec(spec) => w.(cluster := Some(Edited(w.cluster.value, spec)))
    case MarkDeleted => w.(cluster := Marked(w.cluster.value))
    case Begin => Begun(w)
    case Connect(endpoint) =>
      w.(worker := if endpoint.Some? then Rendering(w.worker.x, endpoint.value)
                   else Reporting(w.worker.x, Unfit(CONDITION_SYNCED, REASON_MISSING_CONNECTION)))
    case Render(selection) => w.(worker := RenderResult(w.worker.x, w.worker.endpoint, selection))
    case Sync(e) =>
      var p := w.worker;
      w.(omni := if e.Refused? then w.omni else Some(p.template),
         worker := if e.Done? then Inspecting(p.x, p.endpoint, p.template)
                   else Reporting(p.x, SyncFailed(p.endpoint, p.template)))
    case Inspect(ok) => w.(worker := Reporting(w.worker.x, Synced(w.worker.endpoint, w.worker.template, ok)))
    case Commit(ok) =>
      if !ok then w.(worker := Idle)
      else
        var x := w.cluster.value;
        World(Some(x.(status := Reported(x.status, w.worker.x, w.worker.report))), w.omni, Idle)
    case DeleteRemote(endpoint, e) =>
      if endpoint.None? then w.(worker := Reporting(w.worker.x, Unfit(CONDITION_READY, REASON_DELETE_FAILED)))
      else w.(omni := if e.Refused? then w.omni else None,
              worker := if e.Done? then Releasing(w.worker.x) else Reporting(w.worker.x, DeleteFailed))
    case Release(ok) => if ok then w.(cluster := None, worker := Idle) else w.(worker := Idle)
  }

  predicate Init(w: World) {
    w.cluster.Some? && w.cluster.value.status.conditions == map[] && w.worker == Idle && w.omni == None
    && w.cluster.value.status.observedGeneration <= w.cluster.value.generation
  }

  ghost predicate IsRun(ws: seq<World>, steps: seq<Step>) {
    && |ws| == |steps| + 1
    && forall i :: 0 <= i < |steps| ==> Enabled(ws[i], steps[i]) && ws[i + 1] == Apply(ws[i], steps[i])
  }

  // ---------------------------------------------------------------- coherence

  /** Ready=True comes with Validated=True and Synced=True, all of the observed generation. */
  predicate Coherent(s: Status) {
    Holds(s, CONDITION_READY) ==>
      && HoldsAt(s, CONDITION_READY, s.observedGeneration)
      && HoldsAt(s, CONDITION_VALIDATED, s.observedGeneration)
      && HoldsAt(s, CONDITION_SYNCED, s.observedGeneration)
      && s.template.Some?
  }

  /** Only a report of a synced template whose status was read makes a cluster ready. */
  lemma ReadyOnlyIfSynced(s: Status, x: Cluster, r: Report)
    ensures Coherent(Reported(s, x, r))
    ensures Holds(Reported(s, x, r), CONDITION_READY) <==> r.Synced? && r.statusRead
  {
  }

  /** What was read is not newer than what is stored, and an equal generation means an equal spec. */
  predicate Older(x: Cluster, y: Cluster) {
    x.generation <= y.generation && (x.generation == y.generation ==> x.spec == y.spec)
  }

  /** A ready status at the stored generation describes a template rendered from the stored spec. */
  predicate Current(y: Cluster) {
    Holds(y.status, CONDITION_READY) && y.status.observedGeneration == y.generation ==>
      y.status.template.Some? && y.status.template.value.spec == y.spec
  }

  predicate WorkerSound(p: Worker, y: Cluster) {
    p.Idle? ||
    (&& Older(p.x, y) && y.status.observedGeneration <= p.x.generation
     && (p.Syncing? || p.Inspecting? ==> p.template.spec == p.x.spec)
     && (p.Reporting? && p.report.Synced? ==> p.report.template.spec == p.x.spec))
  }

  predicate Inv(w: World) {
    w.cluster.Some? ==>
      var y := w.cluster.value;
      && Coherent(y.status) && Current(y) && WorkerSound(w.worker, y)
      && y.status.observedGeneration <= y.generation
  }

  lemma CommitKeeps(w: World)
    requires Inv(w) && Enabled(w, Commit(true))
    ensures Inv(Apply(w, Commit(true)))
  {
    hide Reported, Coherent;
    var y, p := w.cluster.value, w.worker;
    ReadyOnlyIfSynced(y.status, p.x, p.report);
    ReportedFields(y.status, p.x, p.report);
  }

  lemma ReportedFields(s: Status, x: Cluster, r: Report)
    ensures Reported(s, x, r).observedGeneration == if r.DeleteFailed? then s.observedGeneration else x.generation
    ensures r.Synced? ==> Reported(s, x, r).template == Some(r.template)
  {
  }

  lemma InvStep(w: World, s: Step)
    requires Inv(w) && Enabled(w, s)
    ensures Inv(Apply(w, s))
  {
    hide Reported, Coherent;
    if s == Commit(true) {
      CommitKeeps(w);
    }
  }

  lemma {:induction false} InvAlways(ws: seq<World>, steps: seq<Step>, n: nat)
    requires IsRun(ws, steps) && n < |ws| && Init(ws[0])
    ensures Inv(ws[n])
    decreases n
  {
    hide Apply, Enabled;
    if n > 0 {
      InvAlways(ws, steps, n - 1);
      hide Inv;
      InvStep(ws[n - 1], steps[n - 1]);
    }
  }

  /**
   In every reachable state, Ready=True implies Validated=True and Synced=True at the same, observed
   generation; and if that generation is still the stored one, the template the status describes was
   rendered from the spec as it is stored now.
   */
  lemma ReadyIsCoherent(ws: seq<World>, steps: seq<Step>, n: nat)
    requires IsRun(ws, steps) && n < |ws| && Init(ws[0]) && ws[n].cluster.Some?
    requires Holds(ws[n].cluster.value.status, CONDITION_READY)
    ensures var s := ws[n].cluster.value.status;
            && HoldsAt(s, CONDITION_READY, s.observedGeneration)
            && HoldsAt(s, CONDITION_VALIDATED, s.observedGeneration)
            && HoldsAt(s, CONDITION_SYNCED, s.observedGeneration)
            && s.observedGeneration <= ws[n].cluster.value.generation
    ensures ws[n].cluster.value.status.observedGeneration == ws[n].cluster.value.generation ==>
              && ws[n].cluster.value.status.template.Some?
              && ws[n].cluster.value.status.template.value.spec == ws[n].cluster.value.spec
  {
    hide Apply, Enabled;
    InvAlways(ws, steps, n);
  }

  /** The observed generation never goes back. */
  lemma {:induction false} ObservedGenerationMonotone(ws: seq<World>, steps: seq<Step>, i: nat, n: nat)
    requires IsRun(ws, steps) && i <= n < |ws| && Init(ws[0]) && ws[n].cluster.Some?
    ensures ws[i].cluster.Some?
    ensures ws[i].cluster.value.status.observedGeneration <= ws[n].cluster.value.status.observedGeneration
    decreases n
  {
    hide Apply, Enabled, Reported, Coherent, Current;
    if i < n {
      var w := ws[n - 1];
      StatusAfter(w, steps[n - 1]);
      InvAlways(ws, steps, n - 1);
      if steps[n - 1] == Commit(true) {
        CommitReports(w);
        ReportedFields(w.cluster.value.status, w.worker.x, w.worker.report);
      }
      ObservedGenerationMonotone(ws, steps, i, n - 1);
    }
  }

  // ---------------------------------------------------------------- provenance

  /** Step i handed this template to Omni, which took it. */
  ghost predicate Handed(ws: seq<World>, steps: seq<Step>, i: nat, t: Template) {
    i < |steps| && i < |ws| && steps[i] == Sync(Done) && ws[i].worker.Syncing? && ws[i].worker.template == t
  }

  /** A worker past its sync got there by handing over the template it carries. */
  lemma {:induction false} CarriedWasHanded(ws: seq<World>, steps: seq<Step>, n: nat) returns (i: nat)
    requires IsRun(ws, steps) && n < |ws| && Init(ws[0])
    requires ws[n].worker.Inspecting? || (ws[n].worker.Reporting? && ws[n].worker.report.Synced?)
    ensures i < n && Handed(ws, steps, i, Carried(ws[n].worker))
    decreases n
  {
    hide Reported;
    var s := steps[n - 1];
    if s == Sync(Done) {
      i := n - 1;
    } else {
      i := CarriedWasHanded(ws, steps, n - 1);
    }
  }

  function Carried(p: Worker): Template
    requires p.Inspecting? || (p.Reporting? && p.report.Synced?)
  {
    if p.Inspecting? then p.template else p.report.template
  }

  /** A step leaves the status alone unless it is a commit. */
  lemma StatusAfter(w: World, s: Step)
    requires Enabled(w, s) && Apply(w, s).cluster.Some?
    ensures w.cluster.Some?
    ensures s != Commit(true) ==> Apply(w, s).cluster.value.status == w.cluster.value.status
    ensures s == Commit(true) ==>
      Apply(w, s).cluster.value.status == Reported(w.cluster.value.status, w.worker.x, w.worker.report)
  {
    hide Reported;
  }

  /**
   Ready=True is earned: the template whose hash the status shows was accepted by Omni in an earlier
   step, and the object has had no successful status write since the one that said so.
   */
  lemma {:induction false} ReadyIsEarned(ws: seq<World>, steps: seq<Step>, n: nat) returns (i: nat, j: nat)
    requires IsRun(ws, steps) && n < |ws| && Init(ws[0]) && ws[n].cluster.Some?
    requires Holds(ws[n].cluster.value.status, CONDITION_READY)
    ensures i < j < n && ws[n].cluster.value.status.template.Some?
    ensures Handed(ws, steps, i, ws[n].cluster.value.status.template.value)
    ensures steps[j] == Commit(true) && forall k :: j < k < n ==> steps[k] != Commit(true)
    decreases n
  {
    hide Apply, Enabled, Reported;
    StatusAfter(ws[n - 1], steps[n - 1]);
    if steps[n - 1] == Commit(true) {
      var w := ws[n - 1];
      CommitReports(w);
      ReadyOnlyIfSynced(w.cluster.value.status, w.worker.x, w.worker.report);
      ReportedFields(w.cluster.value.status, w.worker.x, w.worker.report);
      i := CarriedWasHanded(ws, steps, n - 1);
      j := n - 1;
    } else {
      i, j := ReadyIsEarned(ws, steps, n - 1);
    }
  }

  lemma CommitReports(w: World)
    requires Enabled(w, Commit(true))
    ensures w.worker.Reporting? && w.cluster.Some?
  {
  }
}
