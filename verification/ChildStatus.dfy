/**
 The Accepted condition of a control plane, worker set or machine, over every run of its reconciler.

 Whether the cluster exists is looked up for the child as the pass read it; the report is made of the
 child as it is stored by then.  Clusters and the child may change in between, and every such change
 marks the child for another pass.
 */
module ChildStatus {
  import opened Kube
  import opened Retry

  datatype ChildKind = ControlPlane | Workers | Machine

  /** `own` is workerSetName or machineID. */
  datatype ChildSpec = ChildSpec(name: string, clusterRef: string, own: string, rest: string)

  datatype Status = Status(observedGeneration: int, clusterRef: string, own: string, conditions: Conditions)

  type Child = Object<ChildSpec, Status>

  /** What updateControlPlaneStatus, updateWorkersStatus and updateMachineStatus write. */
  function Report(kind: ChildKind, found: bool): Child -> Status {
    (x: Child) =>
      Status(x.generation, x.spec.clusterRef,
             if kind.ControlPlane? then x.status.own else if x.spec.own == "" then x.spec.name else x.spec.own,
             x.status.conditions[CONDITION_ACCEPTED := AcceptedCondition(x.generation, found)])
  }

  /** A child whose status has just been written draws no second write, so its own watch cannot loop. */
  lemma ReportSettles(kind: ChildKind, found: bool, x: Child)
    ensures var y := x.(status := Report(kind, found)(x)); Report(kind, found)(y) == y.status
  {
    var y := x.(status := Report(kind, found)(x));
    assert Report(kind, found)(y).conditions == y.status.conditions;
  }

  /**
   updateControlPlaneStatus, updateWorkersStatus and updateMachineStatus: one atomic status write or none, on the
   child as it is stored at that instant, that loses no concurrent edit and touches no condition but Accepted.
   */
  method UpdateChildStatus(store: Store<Child>, kind: ChildKind, found: bool, rounds: seq<Round<Child>>) returns (result: Result)
    requires store.Valid() && store.log == [] && |rounds| == ATTEMPTS
    modifies store
    ensures store.Valid() && store.initial == old(store.initial)
    ensures Atomic(store.initial, store.log, StatusWrite(Report(kind, found))) && Ours(store.log) <= 1
    ensures BesidesStatus(store.Value()) == BesidesStatus(Replay(store.initial, Rivals(Theirs(store.log))))
    ensures result.Committed? ==> Ours(store.log) == 1
    ensures Ours(store.log) == 1 ==> After(store.initial, Theirs(store.log)).Some? && store.Value().Some?
    ensures Ours(store.log) == 1 ==>
      var before, after := After(store.initial, Theirs(store.log)).value, store.Value().value;
      && after.status.conditions - {"Accepted"} == before.status.conditions - {"Accepted"}
      && (kind.ControlPlane? ==> after.status.own == before.status.own)
    ensures result.Skipped? ==> store.Value().Some? && Report(kind, found)(store.Value().value) == store.Value().value.status
  {
    result := UpdateStatus(store, Report(kind, found), true, rounds);
  }

  // ---------------------------------------------------------------- the machine

  datatype Worker = Idle | Checking(x: Child) | Reporting(x: Child, found: bool)

  /** The clusters of the namespace, one child, its worker, and whether it waits for another pass. */
  datatype World = World(kind: ChildKind, clusters: set<string>, child: Option<Child>, worker: Worker, pending: bool)

  datatype Step =
    // environment
    | SetCluster(name: string, present: bool)
    | Create(spec: ChildSpec)
    | Edit(spec: ChildSpec)
    | Delete
    // the worker
    | Begin
    | Check(ok: bool)
    | Commit(ok: bool)

  predicate Enabled(w: World, s: Step) {
    match s
    case SetCluster(_, _) => true
    case Create(_) => w.child.None?
    case Edit(_) => w.child.Some?
    case Delete => w.child.Some?
    case Begin => w.worker.Idle?
    case Check(_) => w.worker.Checking?
    case Commit(ok) => w.worker.Reporting? && (ok ==> w.child.Some?)
  }

  /** The mapper wakes the child for its cluster; its own watch wakes it for a change of spec; errors are retried. */
  function Apply(w: World, s: Step): World
    requires Enabled(w, s)
  {
    match s
    case SetCluster(name, present) =>
      var changed := (name in w.clusters) != present;
      w.(clusters := if present then w.clusters + {name} else w.clusters - {name},
         pending := w.pending || (changed && w.child.Some? && w.child.value.spec.clusterRef == name))
    case Create(spec) =>
      w.(child := Some(Object(spec, 1, false, {}, Status(0, "", "", map[]))), pending := true)
    case Edit(spec) =>
      var x := w.child.value;
      if spec == x.spec then w
      else w.(child := Some(x.(spec := spec, generation := x.generation + 1)), pending := true)
    case Delete => w.(child := None, pending := true)
    case Begin => w.(worker := if w.child.Some? then Checking(w.child.value) else Idle, pending := false)
    case Check(ok) =>
      if !ok then w.(worker := Idle, pending := true)
      else w.(worker := Reporting(w.worker.x, w.worker.x.spec.clusterRef in w.clusters))
    case Commit(ok) =>
      if !ok then w.(worker := Idle, pending := true)
      else
        var x := w.child.value;
        w.(child := Some(x.(status := Report(w.kind, w.worker.found)(x))), worker := Idle)
  }

  ghost predicate IsRun(ws: seq<World>, steps: seq<Step>) {
    && |ws| == |steps| + 1
    && forall i :: 0 <= i < |steps| ==> Enabled(ws[i], steps[i]) && ws[i + 1] == Apply(ws[i], steps[i])
  }

  predicate Init(w: World) {
    w.child.None? && w.worker.Idle?
  }

  /**
   Accepted is set, the status names the cluster the spec names and the worker set or machine by its own name, and
   Accepted says whether that cluster exists.
   */
  predicate Truthful(w: World)
    requires w.child.Some?
  {
    var x := w.child.value;
    && CONDITION_ACCEPTED in x.status.conditions && x.status.clusterRef == x.spec.clusterRef
    && x.status.conditions[CONDITION_ACCEPTED].generation == x.status.observedGeneration == x.generation
    && (x.status.conditions[CONDITION_ACCEPTED].holds <==> x.spec.clusterRef in w.clusters)
    && x.status.conditions[CONDITION_ACCEPTED].reason == (if x.spec.clusterRef in w.clusters then "Accepted" else "MissingCluster")
    && (!w.kind.ControlPlane? && x.spec.own != "" ==> x.status.own == x.spec.own)
    && (!w.kind.ControlPlane? && x.spec.own == "" ==> x.status.own == x.spec.name)
  }

  // ---------------------------------------------------------------- one pass

  /** A pass that begins at step b, looks its cluster up at step l and writes at step c, with anything in between. */
  ghost predicate IsPass(ws: seq<World>, steps: seq<Step>, b: nat, l: nat, c: nat) {
    && IsRun(ws, steps) && b < l < c < |steps|
    && steps[b] == Begin && steps[l] == Check(true) && steps[c] == Commit(true)
    && forall j :: b < j <= c ==> !ws[j].worker.Idle?
  }

  /** The pass carries the child it read and, from the lookup on, what the lookup found. */
  lemma {:induction false} PassCarries(ws: seq<World>, steps: seq<Step>, b: nat, l: nat, c: nat, n: nat)
    requires IsPass(ws, steps, b, l, c) && b < n <= c
    ensures ws[b].child.Some? && ws[n].worker.x == ws[b].child.value
    ensures n <= l ==> ws[n].worker.Checking?
    ensures l < n ==> ws[n].worker == Reporting(ws[b].child.value, ws[b].child.value.spec.clusterRef in ws[l].clusters)
    decreases n
  {
    if n > b + 1 {
      PassCarries(ws, steps, b, l, c, n - 1);
    }
    assert !ws[n].worker.Idle? && Enabled(ws[n - 1], steps[n - 1]);
    if n <= l {
      StillChecking(ws, steps, b, l, c, n);
    }
  }

  /** Before the lookup at l there was none: a worker that has looked up does not look up again. */
  lemma {:induction false} StillChecking(ws: seq<World>, steps: seq<Step>, b: nat, l: nat, c: nat, n: nat)
    requires IsPass(ws, steps, b, l, c) && b < n <= l
    ensures ws[n].worker.Checking?
    decreases l - n
  {
    assert Enabled(ws[l], steps[l]);
    if n < l {
      StillChecking(ws, steps, b, l, c, n + 1);
      assert !ws[n].worker.Idle? && Enabled(ws[n], steps[n]);
    }
  }

  /**
   In any run, whatever falls between the steps of the pass: the Accepted it writes is true if and only if the
   cluster it looked up existed at the lookup exactly as the cluster named at the write exists at the write.
   */
  lemma AcceptedTruthfulIff(ws: seq<World>, steps: seq<Step>, b: nat, l: nat, c: nat)
    requires IsPass(ws, steps, b, l, c)
    ensures ws[b].child.Some? && ws[c].child.Some? && ws[c + 1].child.Some?
    ensures
      var looked, named := ws[b].child.value.spec.clusterRef, ws[c].child.value.spec.clusterRef;
      Truthful(ws[c + 1]) <==> (looked in ws[l].clusters <==> named in ws[c].clusters)
  {
    PassCarries(ws, steps, b, l, c, c);
    assert Enabled(ws[c], steps[c]);
  }

  /** So it is true of a child that keeps its reference exactly if its cluster neither came nor went in between. */
  lemma AcceptedTruthfulIfKept(ws: seq<World>, steps: seq<Step>, b: nat, l: nat, c: nat)
    requires IsPass(ws, steps, b, l, c) && ws[b].child.Some? && ws[c].child.Some?
    requires ws[c].child.value.spec.clusterRef == ws[b].child.value.spec.clusterRef
    ensures ws[c + 1].child.Some?
    ensures Truthful(ws[c + 1]) <==>
      (ws[b].child.value.spec.clusterRef in ws[l].clusters <==> ws[b].child.value.spec.clusterRef in ws[c].clusters)
  {
    AcceptedTruthfulIff(ws, steps, b, l, c);
  }

  // ---------------------------------------------------------------- every run

  /** Unless the child waits for another pass, its status is true or the pass under way will make it so. */
  predicate Inv(w: World) {
    w.child.Some? && !w.pending ==>
      var x := w.child.value;
      match w.worker
      case Idle => Truthful(w)
      case Checking(y) => y.spec == x.spec
      case Reporting(y, found) => y.spec == x.spec && found == (x.spec.clusterRef in w.clusters)
  }

  lemma InvStep(w: World, s: Step)
    requires Inv(w) && Enabled(w, s)
    ensures Inv(Apply(w, s))
  {
  }

  /**
   A false Accepted does not last: in every reachable state in which no pass is under way and none is due, the
   status of the child says the truth about its cluster.
   */
  lemma {:induction false} QuietIsTruthful(ws: seq<World>, steps: seq<Step>, n: nat)
    requires IsRun(ws, steps) && n < |ws| && Init(ws[0])
    ensures Inv(ws[n])
    ensures ws[n].child.Some? && ws[n].worker.Idle? && !ws[n].pending ==> Truthful(ws[n])
    decreases n
  {
    hide Apply, Enabled, Truthful;
    if n > 0 {
      QuietIsTruthful(ws, steps, n - 1);
      InvStep(ws[n - 1], steps[n - 1]);
    }
  }

  /** And that state is reached: an undisturbed pass leaves the child with a true status, no pass due, and nothing else changed. */
  lemma PassSettles(w: World)
    requires w.child.Some? && w.worker.Idle?
    ensures Enabled(w, Begin) && Enabled(Apply(w, Begin), Check(true))
    ensures Enabled(Apply(Apply(w, Begin), Check(true)), Commit(true))
    ensures
      var v := Apply(Apply(Apply(w, Begin), Check(true)), Commit(true));
      && v.worker.Idle? && !v.pending && v.child.Some? && Truthful(v)
      && v.clusters == w.clusters && v.child.value == w.child.value.(status := v.child.value.status)
  {
    var checking := Apply(w, Begin);
    assert checking.worker == Checking(w.child.value);
  }

  /**
   A run in which Accepted is false for a while: the child moves from a cluster that exists to one that does not
   after the lookup and before the write.
   */
  lemma MovedChildMisreports(kind: ChildKind, spec: ChildSpec, to: string) returns (ws: seq<World>, steps: seq<Step>)
    requires to != spec.clusterRef
    ensures IsPass(ws, steps, 1, 2, 4) && Init(ws[0]) && |steps| == 5
    ensures ws[5].child.Some? && ws[5].child.value.status.clusterRef == to && !Truthful(ws[5]) && ws[5].pending
    ensures CONDITION_ACCEPTED in ws[5].child.value.status.conditions
    ensures ws[5].child.value.status.conditions[CONDITION_ACCEPTED].holds && to !in ws[5].clusters
  {
    var w0 := World(kind, {spec.clusterRef}, None, Idle, false);
    steps := [Create(spec), Begin, Check(true), Edit(spec.(clusterRef := to)), Commit(true)];
    var w1 := Apply(w0, steps[0]);
    var w2 := Apply(w1, steps[1]);
    var w3 := Apply(w2, steps[2]);
    var w4 := Apply(w3, steps[3]);
    ws := [w0, w1, w2, w3, w4, Apply(w4, steps[4])];
  }
}
