/**
 What each pass over an OmniCluster commits and what it does to the remote cluster, over every run: spec edits and
 the deletion mark may fall between any two of its steps.
 */
module ClusterReports {
  import opened Kube
  import opened ClusterStatus

  predicate ByUser(s: Step) {
    s.EditSpec? || s.MarkDeleted?
  }

  // ---------------------------------------------------------------- passes

  /** A pass began at step b on the object x, and no other has begun since. */
  ghost predicate InPass(ws: seq<World>, steps: seq<Step>, b: nat, n: nat, x: Cluster) {
    && b < n <= |steps| < |ws| && steps[b] == Begin && ws[b].cluster == Some(x)
    && forall j :: b < j < n ==> steps[j] != Begin
  }

  /** The pass has taken this step. */
  ghost predicate Did(steps: seq<Step>, b: nat, n: nat, s: Step) {
    n <= |steps| && exists j :: b <= j < n && steps[j] == s
  }

  predicate Live(x: Cluster) {
    !x.deleting && x.finalizer && !x.spec.suspend
  }

  /** The connection was there at this endpoint, and the template of x rendered from these children is valid. */
  ghost predicate Prepared(steps: seq<Step>, b: nat, n: nat, x: Cluster, endpoint: string, t: Template) {
    Did(steps, b, n, Connect(Some(endpoint))) && t.spec == x.spec && Did(steps, b, n, Render(Valid(t.children)))
  }

  ghost predicate Knows(steps: seq<Step>, b: nat, n: nat, p: Worker) {
    match p
    case Idle => true
    case Connecting(x) => Live(x)
    case Rendering(x, e) => Live(x) && Did(steps, b, n, Connect(Some(e)))
    case Syncing(x, e, t) => Live(x) && Prepared(steps, b, n, x, e, t)
    case Inspecting(x, e, t) => Live(x) && Prepared(steps, b, n, x, e, t) && Did(steps, b, n, Sync(Done))
    case Deleting(x) => x.deleting && x.finalizer && !x.spec.orphan
    case Releasing(x) =>
      && x.deleting && x.finalizer
      && (x.spec.orphan || exists e :: Did(steps, b, n, DeleteRemote(Some(e), Done)))
    case Reporting(_, _) => true
  }

  lemma DidStill(steps: seq<Step>, b: nat, n: nat, p: Worker)
    requires Knows(steps, b, n, p) && b <= n < |steps|
    ensures Knows(steps, b, n + 1, p)
  {
    forall s | Did(steps, b, n, s) ensures Did(steps, b, n + 1, s) {
    }
    hide Did;
    if p.Releasing? && !p.x.spec.orphan {
      var e :| Did(steps, b, n, DeleteRemote(Some(e), Done));
      assert Did(steps, b, n + 1, DeleteRemote(Some(e), Done));
    }
  }

  lemma JustDid(steps: seq<Step>, b: nat, n: nat)
    requires b <= n < |steps|
    ensures Did(steps, b, n + 1, steps[n])
  {
  }

  lemma KnowsAfter(w: World, steps: seq<Step>, b: nat, n: nat)
    requires b <= n < |steps| && Enabled(w, steps[n]) && Knows(steps, b, n, w.worker) && steps[n] != Begin
    requires !w.worker.Reporting?
    ensures Knows(steps, b, n + 1, Apply(w, steps[n]).worker)
    ensures
      var q := Apply(w, steps[n]).worker;
      q.Idle? || (!w.worker.Idle? && q.x == w.worker.x)
  {
    hide Did, Reported;
    DidStill(steps, b, n, w.worker);
    JustDid(steps, b, n);
  }

  lemma KnowsFirst(w: World, steps: seq<Step>, n: nat)
    requires n < |steps| && Enabled(w, steps[n]) && steps[n] == Begin
    ensures
      var q := Apply(w, Begin).worker;
      Knows(steps, n, n + 1, q) && (!q.Idle? ==> w.cluster == Some(q.x))
  {
    hide Did, Reported;
  }

  /** A busy worker is in a pass that began on the object it carries, and has taken the steps that led it here. */
  lemma {:induction false} PassKnows(ws: seq<World>, steps: seq<Step>, n: nat) returns (b: nat)
    requires IsRun(ws, steps) && n < |ws| && Init(ws[0]) && !ws[n].worker.Idle? && !ws[n].worker.Reporting?
    ensures InPass(ws, steps, b, n, ws[n].worker.x) && Knows(steps, b, n, ws[n].worker)
    decreases n
  {
    hide Apply, Enabled, Knows;
    var m := n - 1;
    assert ws[n] == Apply(ws[m], steps[m]);
    WorkerAfter(ws[m], steps[m]);
    if steps[m] == Begin {
      b := m;
      KnowsFirst(ws[m], steps, m);
    } else {
      b := PassKnows(ws, steps, m);
      KnowsAfter(ws[m], steps, b, m);
    }
  }

  lemma WorkerAfter(w: World, s: Step)
    requires Enabled(w, s)
    ensures
      var p, q := w.worker, Apply(w, s).worker;
      && (ByUser(s) ==> q == p)
      && (s == Begin ==> p.Idle?)
      && (p.Idle? && !q.Idle? ==> s == Begin)
      && (p.Reporting? && !q.Idle? ==> q == p && ByUser(s))
  {
    hide Reported;
  }

  // ---------------------------------------------------------------- what the status says

  datatype Verdict = Kept | Yes(reason: string) | No(reason: string)

  /** What the pass that ends with step s says of Validated, Synced and Ready. */
  function SaysValidated(s: Step): Verdict {
    match s
    case Render(MissingTemplate) => No("MissingTemplate")
    case Render(_) => No("ValidationFailed")
    case Sync(_) => Yes("Validated")
    case Inspect(_) => Yes("Validated")
    case _ => Kept
  }

  function SaysSynced(s: Step): Verdict {
    match s
    case Connect(_) => No("MissingConnection")
    case Sync(_) => No("SyncFailed")
    case Inspect(_) => Yes("Synced")
    case _ => Kept
  }

  function SaysReady(s: Step): Verdict {
    match s
    case Begin => No("Suspended")
    case Connect(_) => No("MissingConnection")
    case Render(MissingTemplate) => No("MissingTemplate")
    case Render(_) => No("ValidationFailed")
    case Sync(_) => No("SyncFailed")
    case Inspect(ok) => if ok then Yes("Synced") else No("StatusFailed")
    case DeleteRemote(_, _) => No("DeleteFailed")
    case _ => Kept
  }

  predicate Told(before: Conditions, after: Conditions, condition: string, v: Verdict, generation: int) {
    if v.Kept? then
      && (condition in after <==> condition in before)
      && (condition in after ==> after[condition] == before[condition])
    else condition in after && after[condition] == Condition(v.Yes?, generation, v.reason)
  }

  /** The pass got as far as a template. */
  predicate HasTemplate(s: Step) {
    (s.Render? && s.selection.Invalid?) || s.Sync? || s.Inspect?
  }

  /** The pass tells under which name the cluster goes in Omni. */
  predicate Naming(s: Step) {
    s.Connect? || s.Render? || s.Sync? || s.Inspect? || (s.DeleteRemote? && s.endpoint.None?)
  }

  /** The status `after`, written over `before` by a pass over x that ended with step s. */
  ghost predicate Says(x: Cluster, s: Step, before: Status, after: Status, endpoint: string, t: Template) {
    && Told(before.conditions, after.conditions, "Validated", SaysValidated(s), x.generation)
    && Told(before.conditions, after.conditions, "Synced", SaysSynced(s), x.generation)
    && Told(before.conditions, after.conditions, "Ready", SaysReady(s), x.generation)
    && after.conditions - {"Validated", "Synced", "Ready"} == before.conditions - {"Validated", "Synced", "Ready"}
    && after.observedGeneration == (if s.DeleteRemote? && s.endpoint.Some? then before.observedGeneration else x.generation)
    && after.connectionRef == (if HasTemplate(s) then x.spec.connectionRef else before.connectionRef)
    && after.endpoint == (if HasTemplate(s) then endpoint else before.endpoint)
    && after.template == (if HasTemplate(s) then Some(t) else before.template)
    && after.clusterName == (if !Naming(s) then before.clusterName
                             else if x.spec.clusterName != "" then x.spec.clusterName else x.name)
  }

  ghost predicate Ended(x: Cluster, s: Step, endpoint: string, t: Template, r: Report) {
    forall before: Status :: Says(x, s, before, Reported(before, x, r), endpoint, t)
  }

  /** Where the endpoint and the template in the status come from. */
  ghost predicate Sources(steps: seq<Step>, b: nat, n: nat, x: Cluster, s: Step, endpoint: string, t: Template) {
    HasTemplate(s) ==>
      && t.spec == x.spec && Did(steps, b, n, Connect(Some(endpoint)))
      && (if s.Render? then s == Render(Invalid(t.children)) else Did(steps, b, n, Render(Valid(t.children))))
      && (s.Inspect? ==> Did(steps, b, n, Sync(Done)))
  }

  const NO_TEMPLATE := Template(Spec("", "", false, false, ""), "")

  function EndpointOf(p: Worker): string {
    if p.Rendering? || p.Syncing? || p.Inspecting? then p.endpoint else ""
  }

  function TemplateOf(p: Worker, s: Step): Template {
    if p.Syncing? || p.Inspecting? then p.template
    else if p.Rendering? && s.Render? && s.selection.Invalid? then Template(p.x.spec, s.selection.children)
    else NO_TEMPLATE
  }

  /** The report with which this step ends a pass. */
  predicate EndsWith(s: Step, endpoint: string, t: Template, r: Report) {
    match r
    case Suspended => s.Begin?
    case Unfit(condition, reason) =>
      || (s.Connect? && condition == "Synced" && reason == "MissingConnection")
      || (s == Render(MissingTemplate) && condition == "Validated" && reason == "MissingTemplate")
      || (s == Render(RenderFailed) && condition == "Validated" && reason == "ValidationFailed")
      || (s.DeleteRemote? && s.endpoint.None? && condition == "Ready" && reason == "DeleteFailed")
    case InvalidTemplate(e, u) => s.Render? && s.selection.Invalid? && e == endpoint && u == t
    case SyncFailed(e, u) => s.Sync? && e == endpoint && u == t
    case Synced(e, u, ok) => s == Inspect(ok) && e == endpoint && u == t
    case DeleteFailed => s.DeleteRemote? && s.endpoint.Some?
  }

  lemma ReportSays(x: Cluster, s: Step, endpoint: string, t: Template, r: Report, before: Status)
    requires EndsWith(s, endpoint, t, r)
    ensures Says(x, s, before, Reported(before, x, r), endpoint, t)
  {
    var after := Reported(before, x, r);
    assert after.conditions - {"Validated", "Synced", "Ready"} == before.conditions - {"Validated", "Synced", "Ready"} by {
      hide Says;
    }
  }

  lemma StepEnds(w: World, s: Step)
    requires Enabled(w, s) && !ByUser(s) && Apply(w, s).worker.Reporting?
    ensures Ended(Apply(w, s).worker.x, s, EndpointOf(w.worker), TemplateOf(w.worker, s), Apply(w, s).worker.report)
    ensures s != Begin ==> !w.worker.Idle? && !w.worker.Reporting? && Apply(w, s).worker.x == w.worker.x
    ensures s == Begin ==> w.cluster == Some(Apply(w, s).worker.x)
    ensures s.Sync? ==> w.worker.Syncing? && !s.effect.Done?
    ensures s.Inspect? ==> w.worker.Inspecting?
    ensures s.Render? ==> w.worker.Rendering?
  {
    var r, e, t := Apply(w, s).worker.report, EndpointOf(w.worker), TemplateOf(w.worker, s);
    assert EndsWith(s, e, t, r) by {
      hide Reported;
    }
    hide Apply, EndsWith;
    forall before: Status ensures Says(Apply(w, s).worker.x, s, before, Reported(before, Apply(w, s).worker.x, r), e, t) {
      ReportSays(Apply(w, s).worker.x, s, e, t, r, before);
      hide Says, Reported;
    }
  }

  /** A pass about to report was ended by its latest step, in a pass over the object it carries. */
  lemma {:induction false} EndedBy(ws: seq<World>, steps: seq<Step>, n: nat) returns (b: nat, m: nat, endpoint: string, t: Template)
    requires IsRun(ws, steps) && n < |ws| && Init(ws[0]) && ws[n].worker.Reporting?
    ensures InPass(ws, steps, b, n, ws[n].worker.x) && b <= m < n
    ensures !ByUser(steps[m]) && forall j :: m < j < n ==> ByUser(steps[j])
    ensures Ended(ws[n].worker.x, steps[m], endpoint, t, ws[n].worker.report)
    ensures Sources(steps, b, m, ws[n].worker.x, steps[m], endpoint, t)
    decreases n
  {
    hide Apply, Enabled, Ended;
    var last := n - 1;
    assert ws[n] == Apply(ws[last], steps[last]);
    WorkerAfter(ws[last], steps[last]);
    if ByUser(steps[last]) {
      b, m, endpoint, t := EndedBy(ws, steps, last);
    } else {
      m := last;
      StepEnds(ws[m], steps[m]);
      endpoint, t := EndpointOf(ws[m].worker), TemplateOf(ws[m].worker, steps[m]);
      b := m;
      if steps[m] != Begin {
        b := PassKnows(ws, steps, m);
      }
    }
  }

  /**
   In any run, whatever users do meanwhile, the status that a pass commits says how the pass ended: by its latest step,
   with the verdicts and reasons of that step at the generation it read, the endpoint and the template that it found and
   rendered, and every condition and field that it has nothing to say about as it was.
   */
  lemma StatusSays(ws: seq<World>, steps: seq<Step>, c: nat) returns (b: nat, m: nat, x: Cluster, endpoint: string, t: Template)
    requires IsRun(ws, steps) && c < |steps| && Init(ws[0]) && steps[c] == Commit(true)
    ensures InPass(ws, steps, b, c, x) && b <= m < c && !ByUser(steps[m]) && forall j :: m < j < c ==> ByUser(steps[j])
    ensures ws[c].cluster.Some? && ws[c + 1].cluster.Some? && ws[c + 1].omni == ws[c].omni
    ensures ws[c + 1].cluster.value == ws[c].cluster.value.(status := ws[c + 1].cluster.value.status)
    ensures Says(x, steps[m], ws[c].cluster.value.status, ws[c + 1].cluster.value.status, endpoint, t)
    ensures Sources(steps, b, m, x, steps[m], endpoint, t)
  {
    hide Says, Sources;
    CommitIs(ws[c]);
    assert Enabled(ws[c], steps[c]) && ws[c + 1] == Apply(ws[c], steps[c]);
    hide Apply, Enabled, Reported;
    x := ws[c].worker.x;
    b, m, endpoint, t := EndedBy(ws, steps, c);
  }

  lemma CommitIs(w: World)
    requires Enabled(w, Commit(true))
    ensures
      var x := w.cluster.value;
      Apply(w, Commit(true)) == World(Some(x.(status := Reported(x.status, w.worker.x, w.worker.report))), w.omni, Idle)
  {
    hide Reported;
  }

  // ---------------------------------------------------------------- what happens remotely

  /** How one step changes what Omni holds. */
  lemma OmniAfter(w: World, s: Step)
    requires Enabled(w, s)
    ensures s.Sync? ==> w.worker.Syncing?
    ensures s.DeleteRemote? ==> w.worker.Deleting?
    ensures Apply(w, s).omni ==
      if s.Sync? && !s.effect.Refused? then Some(w.worker.template)
      else if s.DeleteRemote? && s.endpoint.Some? && !s.effect.Refused? then None
      else w.omni
  {
    hide Reported;
  }

  /**
   Over any run, Omni's copy changes in two ways only: a pass over a held, live and not suspended cluster hands over the
   valid template it rendered from the spec it read; or a pass over a held cluster under deletion that is not Orphan,
   with its connection at hand, deletes it.
   */
  lemma OmniChangesOnlyBy(ws: seq<World>, steps: seq<Step>, n: nat) returns (b: nat, x: Cluster)
    requires IsRun(ws, steps) && n < |steps| && Init(ws[0]) && ws[n + 1].omni != ws[n].omni
    ensures InPass(ws, steps, b, n, x) && x.finalizer
    ensures ws[n + 1].omni.Some? ==>
      var t := ws[n + 1].omni.value;
      steps[n].Sync? && !x.deleting && !x.spec.suspend && t.spec == x.spec && Did(steps, b, n, Render(Valid(t.children)))
    ensures ws[n + 1].omni.None? ==>
      steps[n].DeleteRemote? && steps[n].endpoint.Some? && x.deleting && !x.spec.orphan
  {
    hide Apply, Enabled;
    OmniAfter(ws[n], steps[n]);
    b := PassKnows(ws, steps, n);
    x := ws[n].worker.x;
  }

  /** The object goes only when its user deletes it: at once if it is not held, else by the release of a pass. */
  lemma ClusterGoesOnlyIfDeleted(ws: seq<World>, steps: seq<Step>, n: nat) returns (b: nat)
    requires IsRun(ws, steps) && n < |steps| && Init(ws[0]) && ws[n].cluster.Some? && ws[n + 1].cluster.None?
    ensures (steps[n] == MarkDeleted && !ws[n].cluster.value.finalizer) || (steps[n] == Release(true) && ws[n].cluster.value.deleting)
    ensures steps[n] == Release(true) ==>
      var x := ws[n].cluster.value;
      InPass(ws, steps, b, n, x) && x.finalizer && (x.spec.orphan || exists e :: Did(steps, b, n, DeleteRemote(Some(e), Done)))
  {
    hide Did;
    b := 0;
    GoneBy(ws[n], steps[n]);
    if steps[n] == Release(true) {
      hide Apply, Enabled;
      b := PassKnows(ws, steps, n);
    }
  }

  lemma GoneBy(w: World, s: Step)
    requires Enabled(w, s) && w.cluster.Some? && Apply(w, s).cluster.None?
    ensures (s == MarkDeleted && !w.cluster.value.finalizer)
      || (s == Release(true) && w.worker.Releasing? && w.cluster == Some(w.worker.x))
  {
    hide Reported;
  }
}
