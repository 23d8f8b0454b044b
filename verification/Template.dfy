/**
 From the listed child resources to the template and its hash: templateInputs in
 internal/controller/omnicluster_controller.go and Render in internal/omnitemplate/builder.go.

 The informer cache lists in no particular order and Go's sort is not stable, so the template is a
 function of the set of resources only if the sort keys leave it no choice.
 */
module Template {
  import opened Sorting
  import opened Kube

  /** `body` stands for the spec fields that are copied into the document unchanged. */
  datatype Cluster = Cluster(name: string, specName: string, manifests: seq<string>, body: string)
  datatype ControlPlane = ControlPlane(name: string, clusterRef: string, body: string)
  datatype Workers = Workers(name: string, clusterRef: string, workerSetName: string, body: string)
  datatype Machine = Machine(name: string, clusterRef: string, machineID: string, body: string)

  datatype Doc =
    | ClusterDoc(name: string, manifests: seq<string>, body: string)
    | ControlPlaneDoc(body: string)
    | WorkersDoc(name: string, body: string)
    | MachineDoc(id: string, body: string)

  /** SHA-256 of the encoded documents. */
  datatype TemplateDigest = TemplateDigest(docs: seq<Doc>)

  datatype Rendered = Rendered(clusterName: string, docs: seq<Doc>, hash: TemplateDigest, controlPlaneRef: string,
                               workersRefs: seq<string>, machineRefs: seq<string>)

  datatype Result = Ok(rendered: Rendered) | ControlPlaneCount(n: nat) | DuplicateManifest | Reserved(worker: string)

  const RESERVED_NAME := "control-planes"

  function ClusterName(c: Cluster): string {
    if c.specName != "" then c.specName else c.name
  }

  function WorkerSetName(w: Workers): string {
    if w.workerSetName != "" then w.workerSetName else w.name
  }

  function MachineID(m: Machine): string {
    if m.machineID != "" then m.machineID else m.name
  }

  function RenderWorkers(w: Workers): Doc {
    WorkersDoc(WorkerSetName(w), w.body)
  }

  function RenderMachine(m: Machine): Doc {
    MachineDoc(MachineID(m), m.body)
  }

  function WorkersRef(w: Workers): string { w.name }

  function MachineRef(m: Machine): string { m.name }

  // ---------------------------------------------------------------- sequences

  function Map<T, U>(f: T -> U, s: seq<T>): (r: seq<U>)
    ensures |r| == |s|
    ensures forall i :: 0 <= i < |s| ==> r[i] == f(s[i])
  {
    if s == [] then [] else [f(s[0])] + Map(f, s[1..])
  }

  function Select<T>(s: seq<T>, p: T -> bool): seq<T> {
    if s == [] then [] else (if p(s[0]) then [s[0]] else []) + Select(s[1..], p)
  }

  lemma {:induction false} SelectConcat<T>(s: seq<T>, t: seq<T>, p: T -> bool)
    ensures Select(s + t, p) == Select(s, p) + Select(t, p)
  {
    if s == [] {
      assert s + t == t;
    } else {
      var h := if p(s[0]) then [s[0]] else [];
      assert (s + t)[0] == s[0] && (s + t)[1..] == s[1..] + t;
      calc {
        Select(s + t, p);
        h + Select(s[1..] + t, p);
        { SelectConcat(s[1..], t, p); }
        h + (Select(s[1..], p) + Select(t, p));
        (h + Select(s[1..], p)) + Select(t, p);
      }
    }
  }

  /** Taking out one element takes its selection out of the selected multiset. */
  lemma SelectRemove<T>(t: seq<T>, j: nat, p: T -> bool)
    requires j < |t|
    ensures
      var u := t[..j] + t[j + 1..];
      && multiset(u) == multiset(t) - multiset{t[j]}
      && multiset(Select(t, p)) == multiset(Select(u, p)) + multiset(Select([t[j]], p))
  {
    var a, b := t[..j], t[j + 1..];
    assert t == a + ([t[j]] + b);
    SelectConcat(a, [t[j]] + b, p);
    SelectConcat([t[j]], b, p);
    SelectConcat(a, b, p);
  }

  lemma {:induction false} SelectPermutation<T>(s: seq<T>, t: seq<T>, p: T -> bool)
    requires multiset(s) == multiset(t)
    ensures multiset(Select(s, p)) == multiset(Select(t, p))
    decreases |s|
  {
    hide Select;
    if s == [] {
      assert |t| == |multiset(t)| == |multiset(s)| == 0;
    } else {
      assert s[0] in multiset(t);
      var j :| 0 <= j < |t| && t[j] == s[0];
      SelectRemove(s, 0, p);
      SelectRemove(t, j, p);
      SelectPermutation(s[..0] + s[1..], t[..j] + t[j + 1..], p);
    }
  }

  lemma MapSnoc<T, U>(f: T -> U, s: seq<T>, i: nat)
    requires i < |s|
    ensures Map(f, s[..i + 1]) == Map(f, s[..i]) + [f(s[i])]
  {
    hide Map;
  }

  lemma MapRemove<T, U>(f: T -> U, t: seq<T>, j: nat)
    requires j < |t|
    ensures
      var u := t[..j] + t[j + 1..];
      && multiset(u) == multiset(t) - multiset{t[j]}
      && multiset(Map(f, t)) == multiset(Map(f, u)) + multiset{f(t[j])}
  {
    hide Map;
    var a, b := t[..j], t[j + 1..];
    assert t == a + [t[j]] + b;
    assert Map(f, t) == Map(f, a) + [f(t[j])] + Map(f, b);
    assert Map(f, a + b) == Map(f, a) + Map(f, b);
  }

  lemma {:induction false} MapPermutation<T, U>(f: T -> U, s: seq<T>, t: seq<T>)
    requires multiset(s) == multiset(t)
    ensures multiset(Map(f, s)) == multiset(Map(f, t))
    decreases |s|
  {
    hide Map;
    if s == [] {
      assert |t| == |multiset(t)| == |multiset(s)| == 0;
    } else {
      assert s[0] in multiset(t);
      var j :| 0 <= j < |t| && t[j] == s[0];
      MapRemove(f, s, 0);
      MapRemove(f, t, j);
      MapPermutation(f, s[..0] + s[1..], t[..j] + t[j + 1..]);
    }
  }

  // ---------------------------------------------------------------- selection

  /** The append loops of templateInputs. */
  method Collect<T>(items: seq<T>, p: T -> bool) returns (selected: seq<T>)
    ensures selected == Select(items, p)
  {
    selected := [];
    for i := 0 to |items|
      invariant selected == Select(items[..i], p)
    {
      SelectConcat(items[..i], [items[i]], p);
      assert items[..i + 1] == items[..i] + [items[i]];
      if p(items[i]) {
        selected := selected + [items[i]];
      }
    }
    assert items[..|items|] == items;
  }

  // ---------------------------------------------------------------- rendering

  predicate Distinct(names: seq<string>) {
    forall i, j :: 0 <= i < j < |names| ==> names[i] != names[j]
  }

  /** validateManifestNames: each name is claimed once. */
  method ValidateManifestNames(names: seq<string>) returns (ok: bool)
    ensures ok <==> Distinct(names)
  {
    var owners: map<string, string> := map[];
    for i := 0 to |names|
      invariant Distinct(names[..i])
      invariant forall n :: n in owners <==> n in names[..i]
    {
      if names[i] in owners {
        assert names[i] in names[..i];
        return false;
      }
      owners := owners[names[i] := "OmniCluster.spec.kubernetes.manifests[]"];
      assert names[..i + 1] == names[..i] + [names[i]];
    }
    return true;
  }

  /** The first worker set that takes the reserved name, in the order given. */
  function FirstReserved(ws: seq<Workers>): Option<string> {
    if ws == [] then None
    else if WorkerSetName(ws[0]) == RESERVED_NAME then Some(ws[0].name)
    else FirstReserved(ws[1..])
  }

  /** The template for workers and machines in a given order. */
  function Assemble(cluster: Cluster, cp: ControlPlane, ws: seq<Workers>, ms: seq<Machine>): Result {
    if !Distinct(cluster.manifests) then DuplicateManifest
    else if FirstReserved(ws).Some? then Reserved(FirstReserved(ws).value)
    else
      var docs := [ClusterDoc(ClusterName(cluster), cluster.manifests, cluster.body), ControlPlaneDoc(cp.body)]
        + Map(RenderWorkers, ws) + Map(RenderMachine, ms);
      Ok(Rendered(ClusterName(cluster), docs, TemplateDigest(docs), cp.name,
                  Map(WorkersRef, ws), Map(MachineRef, ms)))
  }

  /** The cluster, the control plane, the worker sets and the machines, each with its own fields, and their references. */
  ghost predicate Documents(cluster: Cluster, cp: ControlPlane, ws: seq<Workers>, ms: seq<Machine>, t: Rendered) {
    && t.clusterName == (if cluster.specName != "" then cluster.specName else cluster.name)
    && |t.docs| == 2 + |ws| + |ms|
    && t.docs[0] == ClusterDoc(t.clusterName, cluster.manifests, cluster.body)
    && t.docs[1] == ControlPlaneDoc(cp.body) && t.controlPlaneRef == cp.name
    && (forall i :: 0 <= i < |ws| ==>
          t.docs[2 + i] == WorkersDoc(if ws[i].workerSetName != "" then ws[i].workerSetName else ws[i].name, ws[i].body))
    && (forall i :: 0 <= i < |ms| ==>
          t.docs[2 + |ws| + i] == MachineDoc(if ms[i].machineID != "" then ms[i].machineID else ms[i].name, ms[i].body))
    && |t.workersRefs| == |ws| && (forall i :: 0 <= i < |ws| ==> t.workersRefs[i] == ws[i].name)
    && |t.machineRefs| == |ms| && (forall i :: 0 <= i < |ms| ==> t.machineRefs[i] == ms[i].name)
    && t.hash == TemplateDigest(t.docs)
  }

  /** This worker set goes by the name that Omni keeps for control planes. */
  predicate TakesReserved(w: Workers) {
    w.workerSetName == "control-planes" || (w.workerSetName == "" && w.name == "control-planes")
  }

  predicate ManifestTwice(cluster: Cluster) {
    exists i, j :: 0 <= i < j < |cluster.manifests| && cluster.manifests[i] == cluster.manifests[j]
  }

  /** What rendering these resources in this order answers, the errors in the order they are found. */
  ghost predicate Answers(cluster: Cluster, cp: ControlPlane, ws: seq<Workers>, ms: seq<Machine>, r: Result) {
    && !r.ControlPlaneCount?
    && (r.DuplicateManifest? <==> ManifestTwice(cluster))
    && (r.Reserved? <==> !ManifestTwice(cluster) && exists w :: w in ws && TakesReserved(w))
    && (r.Reserved? ==> exists w :: w in ws && TakesReserved(w) && w.name == r.worker)
    && (r.Ok? ==> Documents(cluster, cp, ws, ms, r.rendered))
  }

  lemma {:induction false} FirstReservedIs(ws: seq<Workers>)
    ensures FirstReserved(ws).Some? <==> exists w :: w in ws && TakesReserved(w)
    ensures FirstReserved(ws).Some? ==> exists w :: w in ws && TakesReserved(w) && w.name == FirstReserved(ws).value
  {
    if ws != [] {
      assert ws[0] in ws && (WorkerSetName(ws[0]) == RESERVED_NAME <==> TakesReserved(ws[0]));
      FirstReservedIs(ws[1..]);
      assert forall w :: w in ws <==> w == ws[0] || w in ws[1..];
    }
  }

  lemma AssembleAnswers(cluster: Cluster, cp: ControlPlane, ws: seq<Workers>, ms: seq<Machine>)
    ensures Answers(cluster, cp, ws, ms, Assemble(cluster, cp, ws, ms))
  {
    hide Map, FirstReserved;
    FirstReservedIs(ws);
  }

  /** One document and one reference per worker set, unless one takes the reserved name. */
  method AppendWorkers(ws: seq<Workers>) returns (reserved: Option<string>, docs: seq<Doc>, refs: seq<string>)
    ensures reserved == FirstReserved(ws)
    ensures reserved.None? ==> docs == Map(RenderWorkers, ws) && refs == Map(WorkersRef, ws)
  {
    hide Map;
    docs, refs := [], [];
    for i := 0 to |ws|
      invariant docs == Map(RenderWorkers, ws[..i]) && refs == Map(WorkersRef, ws[..i])
      invariant FirstReserved(ws) == FirstReserved(ws[i..])
    {
      var name := WorkerSetName(ws[i]);
      if name == RESERVED_NAME {
        return Some(ws[i].name), docs, refs;
      }
      MapSnoc(RenderWorkers, ws, i);
      MapSnoc(WorkersRef, ws, i);
      assert ws[i..][1..] == ws[i + 1..];
      docs := docs + [WorkersDoc(name, ws[i].body)];
      refs := refs + [ws[i].name];
    }
    assert ws[..|ws|] == ws && ws[|ws|..] == [];
    return None, docs, refs;
  }

  /** One document and one reference per machine. */
  method AppendMachines(ms: seq<Machine>) returns (docs: seq<Doc>, refs: seq<string>)
    ensures docs == Map(RenderMachine, ms) && refs == Map(MachineRef, ms)
  {
    hide Map;
    docs, refs := [], [];
    for i := 0 to |ms|
      invariant docs == Map(RenderMachine, ms[..i]) && refs == Map(MachineRef, ms[..i])
    {
      MapSnoc(RenderMachine, ms, i);
      MapSnoc(MachineRef, ms, i);
      docs := docs + [MachineDoc(MachineID(ms[i]), ms[i].body)];
      refs := refs + [ms[i].name];
    }
    assert ms[..|ms|] == ms;
  }

  /** Render: sort copies, check names, append one document and one reference per worker set and machine. */
  method Render(cluster: Cluster, cp: ControlPlane, workers: seq<Workers>, machines: seq<Machine>)
    returns (r: Result, ghost ws: seq<Workers>, ghost ms: seq<Machine>)
    ensures SortedPermutation(ws, workers, WorkerSetName)
    ensures SortedPermutation(ms, machines, MachineID)
    ensures r == Assemble(cluster, cp, ws, ms) && Answers(cluster, cp, ws, ms, r)
  {
    hide Map, SortedPermutation, FirstReserved, Answers;
    var sortedWorkers := Sort(workers, WorkerSetName);
    var sortedMachines := Sort(machines, MachineID);
    ws, ms := sortedWorkers, sortedMachines;
    AssembleAnswers(cluster, cp, ws, ms);
    var clusterName := ClusterName(cluster);
    var ok := ValidateManifestNames(cluster.manifests);
    if !ok {
      return DuplicateManifest, ws, ms;
    }
    var docs := [ClusterDoc(clusterName, cluster.manifests, cluster.body), ControlPlaneDoc(cp.body)];
    var reserved, workersDocs, workersRefs := AppendWorkers(sortedWorkers);
    if reserved.Some? {
      return Reserved(reserved.value), ws, ms;
    }
    var machineDocs, machineRefs := AppendMachines(sortedMachines);
    docs := docs + workersDocs + machineDocs;
    r := Ok(Rendered(clusterName, docs, TemplateDigest(docs), cp.name, workersRefs, machineRefs));
  }

  /** The elements that satisfy a test, each as often as it is listed. */
  ghost predicate Chooses<T(!new)>(chosen: seq<T>, listed: seq<T>, p: T -> bool) {
    forall x :: multiset(chosen)[x] == if p(x) then multiset(listed)[x] else 0
  }

  lemma {:induction false} SelectChooses<T(!new)>(s: seq<T>, p: T -> bool)
    ensures Chooses(Select(s, p), s, p)
  {
    if s != [] {
      SelectChooses(s[1..], p);
      assert s == [s[0]] + s[1..];
    }
  }

  ghost predicate WorkersInOrder(ws: seq<Workers>) {
    forall i, j :: 0 <= i < j < |ws| ==>
      StringLe(if ws[i].workerSetName != "" then ws[i].workerSetName else ws[i].name,
               if ws[j].workerSetName != "" then ws[j].workerSetName else ws[j].name)
  }

  ghost predicate MachinesInOrder(ms: seq<Machine>) {
    forall i, j :: 0 <= i < j < |ms| ==>
      StringLe(if ms[i].machineID != "" then ms[i].machineID else ms[i].name,
               if ms[j].machineID != "" then ms[j].machineID else ms[j].name)
  }

  /** The one control plane that names the cluster, and its worker sets and machines in order of their names, answered. */
  ghost predicate AnswersListed(cluster: Cluster, cps: seq<ControlPlane>, workers: seq<Workers>, machines: seq<Machine>, r: Result) {
    exists cp :: Chooses(cp, cps, (x: ControlPlane) => x.clusterRef == cluster.name)
      && if |cp| != 1 then r == ControlPlaneCount(|cp|) else AnswersOne(cluster, cp[0], workers, machines, r)
  }

  ghost predicate AnswersOne(cluster: Cluster, cp: ControlPlane, workers: seq<Workers>, machines: seq<Machine>, r: Result) {
    exists ws, ms ::
      && Chooses(ws, workers, (x: Workers) => x.clusterRef == cluster.name) && WorkersInOrder(ws)
      && Chooses(ms, machines, (x: Machine) => x.clusterRef == cluster.name) && MachinesInOrder(ms)
      && Answers(cluster, cp, ws, ms, r)
  }

  lemma SortedChoice<T(!new)>(chosen: seq<T>, s: seq<T>, p: T -> bool, key: T -> string)
    requires SortedPermutation(chosen, Select(s, p), key)
    ensures Chooses(chosen, s, p)
  {
    SelectChooses(s, p);
  }

  lemma KeysInOrder<T(!new)>(s: seq<T>, key: T -> string, i: nat, j: nat)
    requires SortedBy(s, key) && i < j < |s|
    ensures StringLe(key(s[i]), key(s[j]))
  {
  }

  lemma InOrder(ws: seq<Workers>, ms: seq<Machine>)
    requires SortedBy(ws, WorkerSetName) && SortedBy(ms, MachineID)
    ensures WorkersInOrder(ws) && MachinesInOrder(ms)
  {
    hide SortedBy, StringLe;
    forall i, j | 0 <= i < j < |ws| ensures StringLe(WorkerSetName(ws[i]), WorkerSetName(ws[j])) {
      KeysInOrder(ws, WorkerSetName, i, j);
    }
    forall i, j | 0 <= i < j < |ms| ensures StringLe(MachineID(ms[i]), MachineID(ms[j])) {
      KeysInOrder(ms, MachineID, i, j);
    }
  }

  /** What a cluster's pass renders from everything listed in its namespace. */
  method RenderListed(cluster: Cluster, cps: seq<ControlPlane>, workers: seq<Workers>, machines: seq<Machine>)
    returns (r: Result)
    ensures Renders(cluster, cps, workers, machines, r)
    ensures AnswersListed(cluster, cps, workers, machines, r)
  {
    hide Answers, Assemble, Select, StringLe, Chooses, SortedBy, WorkersInOrder, MachinesInOrder;
    SelectChooses(cps, (x: ControlPlane) => x.clusterRef == cluster.name);
    var selectedCps := Collect(cps, (x: ControlPlane) => x.clusterRef == cluster.name);
    if |selectedCps| != 1 {
      return ControlPlaneCount(|selectedCps|);
    }
    var selectedWorkers := Collect(workers, (x: Workers) => x.clusterRef == cluster.name);
    var selectedMachines := Collect(machines, (x: Machine) => x.clusterRef == cluster.name);
    ghost var ws; ghost var ms;
    r, ws, ms := Render(cluster, selectedCps[0], selectedWorkers, selectedMachines);
    SortedChoice(ws, workers, (x: Workers) => x.clusterRef == cluster.name, WorkerSetName);
    SortedChoice(ms, machines, (x: Machine) => x.clusterRef == cluster.name, MachineID);
    InOrder(ws, ms);
    assert AnswersOne(cluster, selectedCps[0], workers, machines, r);
  }

  /** r is a possible rendering of the listed resources, whichever sorted orders the sort picks. */
  ghost predicate Renders(cluster: Cluster, cps: seq<ControlPlane>, workers: seq<Workers>, machines: seq<Machine>, r: Result) {
    var cp := Select(cps, (x: ControlPlane) => x.clusterRef == cluster.name);
    if |cp| != 1 then r == ControlPlaneCount(|cp|)
    else
      exists ws, ms ::
        && SortedPermutation(ws, SelectedWorkers(cluster, workers), WorkerSetName)
        && SortedPermutation(ms, SelectedMachines(cluster, machines), MachineID)
        && r == Assemble(cluster, cp[0], ws, ms)
  }

  function SelectedWorkers(cluster: Cluster, workers: seq<Workers>): seq<Workers> {
    Select(workers, (x: Workers) => x.clusterRef == cluster.name)
  }

  function SelectedMachines(cluster: Cluster, machines: seq<Machine>): seq<Machine> {
    Select(machines, (x: Machine) => x.clusterRef == cluster.name)
  }

  // ---------------------------------------------------------------- canonicity

  lemma SamePermutation<T>(s: seq<T>, t: seq<T>, a: seq<T>, b: seq<T>, key: T -> string)
    requires multiset(s) == multiset(t) && NoClash(s, key)
    requires SortedPermutation(a, s, key) && SortedPermutation(b, t, key)
    ensures a == b
  {
    assert forall x :: x in a ==> x in multiset(s);
    SortedUnique(a, b, key);
  }

  lemma SingletonPermutation<T>(s: seq<T>, t: seq<T>)
    requires multiset(s) == multiset(t)
    ensures |s| == |t| && (|s| == 1 ==> s[0] == t[0])
  {
    assert |s| == |multiset(s)| == |multiset(t)| == |t|;
    if |s| == 1 {
      assert s[0] in multiset(t);
    }
  }

  /**
   Rendering is canonical: when the selected worker sets have distinct effective names and the
   selected machines distinct ids, any permutation of the lists yields the same documents, the same
   references and the same hash (or the same error).
   */
  lemma RenderingIsCanonical(cluster: Cluster, cps: seq<ControlPlane>, workers: seq<Workers>, machines: seq<Machine>, r: Result,
                             cps': seq<ControlPlane>, workers': seq<Workers>, machines': seq<Machine>, r': Result)
    requires multiset(cps) == multiset(cps')
    requires multiset(workers) == multiset(workers') && multiset(machines) == multiset(machines')
    requires NoClash(SelectedWorkers(cluster, workers), WorkerSetName)
    requires NoClash(SelectedMachines(cluster, machines), MachineID)
    requires Renders(cluster, cps, workers, machines, r) && Renders(cluster, cps', workers', machines', r')
    ensures r == r'
  {
    var p := (x: ControlPlane) => x.clusterRef == cluster.name;
    SelectPermutation(cps, cps', p);
    SelectPermutation(workers, workers', (x: Workers) => x.clusterRef == cluster.name);
    SelectPermutation(machines, machines', (x: Machine) => x.clusterRef == cluster.name);
    SingletonPermutation(Select(cps, p), Select(cps', p));
    if |Select(cps, p)| == 1 {
      var ws, ms :| SortedPermutation(ws, SelectedWorkers(cluster, workers), WorkerSetName)
        && SortedPermutation(ms, SelectedMachines(cluster, machines), MachineID)
        && r == Assemble(cluster, Select(cps, p)[0], ws, ms);
      var ws', ms' :| SortedPermutation(ws', SelectedWorkers(cluster, workers'), WorkerSetName)
        && SortedPermutation(ms', SelectedMachines(cluster, machines'), MachineID)
        && r' == Assemble(cluster, Select(cps', p)[0], ws', ms');
      SamePermutation(SelectedWorkers(cluster, workers), SelectedWorkers(cluster, workers'), ws, ws', WorkerSetName);
      SamePermutation(SelectedMachines(cluster, machines), SelectedMachines(cluster, machines'), ms, ms', MachineID);
    }
  }

  /** Objects of one kind in one namespace are identified by their names. */
  ghost predicate NamesIdentify<T>(s: seq<T>, name: T -> string) {
    forall x, y :: x in s && y in s && name(x) == name(y) ==> x == y
  }

  /** The reference list gives the order away. */
  lemma ReferencesTellOrder<T>(s: seq<T>, t: seq<T>, name: T -> string)
    requires multiset(s) == multiset(t) && NamesIdentify(s, name) && Map(name, s) == Map(name, t)
    ensures s == t
  {
    assert |s| == |Map(name, s)| == |Map(name, t)| == |t|;
    forall i | 0 <= i < |s| ensures s[i] == t[i] {
      assert Map(name, s)[i] == Map(name, t)[i];
      assert t[i] in multiset(s);
    }
  }

  /** Every sorted order of the selection renders to the same result. */
  ghost predicate OrderIrrelevant(cluster: Cluster, cp: ControlPlane, ws: seq<Workers>, ms: seq<Machine>) {
    forall vs, ns :: SortedPermutation(vs, ws, WorkerSetName) && SortedPermutation(ns, ms, MachineID) ==>
      Assemble(cluster, cp, vs, ns) == Assemble(cluster, cp, ws, ms)
  }

  /**
   The condition is exact: once two selected worker sets share an effective name, or two machines
   an id, some sorted order gives another result.
   */
  lemma CanonicalIffNoClash(cluster: Cluster, cp: ControlPlane, ws: seq<Workers>, ms: seq<Machine>)
    requires SortedBy(ws, WorkerSetName) && NamesIdentify(ws, WorkersRef)
    requires SortedBy(ms, MachineID) && NamesIdentify(ms, MachineRef)
    requires Assemble(cluster, cp, ws, ms).Ok?
    ensures OrderIrrelevant(cluster, cp, ws, ms) <==> NoClash(ws, WorkerSetName) && NoClash(ms, MachineID)
  {
    hide StringLe, FirstReserved;
    UniqueIffNoClash(ws, WorkerSetName);
    UniqueIffNoClash(ms, MachineID);
    if OrderIrrelevant(cluster, cp, ws, ms) {
      assert SortedPermutation(ws, ws, WorkerSetName) && SortedPermutation(ms, ms, MachineID);
      forall vs | SortedPermutation(vs, ws, WorkerSetName) ensures vs == ws {
        assert Assemble(cluster, cp, vs, ms) == Assemble(cluster, cp, ws, ms);
        ReferencesTellOrder(ws, vs, WorkersRef);
      }
      forall ns | SortedPermutation(ns, ms, MachineID) ensures ns == ms {
        assert Assemble(cluster, cp, ws, ns) == Assemble(cluster, cp, ws, ms);
        ReferencesTellOrder(ms, ns, MachineRef);
      }
    }
  }

  // ---------------------------------------------------------------- the documents alone

  /** Elements that share a sort key render to the same document. */
  ghost predicate ClashesAgree<T>(s: seq<T>, key: T -> string, render: T -> Doc) {
    forall x, y :: x in s && y in s && key(x) == key(y) ==> render(x) == render(y)
  }

  /** Sorted documents do not depend on the order the sort picked, as long as clashes agree. */
  lemma SameDocuments<T>(s: seq<T>, t: seq<T>, key: T -> string, render: T -> Doc, docKey: Doc -> string)
    requires SortedBy(s, key) && SortedPermutation(t, s, key) && ClashesAgree(s, key, render)
    requires forall x :: docKey(render(x)) == key(x)
    ensures Map(render, s) == Map(render, t)
  {
    hide StringLe, Map;
    MapPermutation(render, t, s);
    SameMembers(s, t);
    SortedUnique(Map(render, s), Map(render, t), docKey);
  }

  /** Two clashing elements that render differently can change places. */
  lemma DifferentDocuments<T>(s: seq<T>, key: T -> string, render: T -> Doc) returns (t: seq<T>)
    requires SortedBy(s, key) && !ClashesAgree(s, key, render)
    ensures SortedPermutation(t, s, key) && Map(render, t) != Map(render, s)
  {
    hide StringLe, Map;
    var x, y :| x in s && y in s && key(x) == key(y) && render(x) != render(y);
    var i, j :| 0 <= i < |s| && 0 <= j < |s| && s[i] == x && s[j] == y;
    t := s[i := s[j]][j := s[i]];
    SwapPermutes(s, if i < j then i else j, if i < j then j else i);
    assert t == s[j := s[i]][i := s[j]];
    assert forall n :: 0 <= n < |s| ==> key(t[n]) == key(s[n]);
    assert Map(render, t)[i] == render(y) && Map(render, s)[i] == render(x);
  }

  function DocName(d: Doc): string {
    match d
    case WorkersDoc(name, _) => name
    case MachineDoc(name, _) => name
    case _ => ""
  }

  /** The documents, and with them the hash, are the same for every sorted order. */
  ghost predicate DocumentsIrrelevant(cluster: Cluster, cp: ControlPlane, ws: seq<Workers>, ms: seq<Machine>)
    requires Assemble(cluster, cp, ws, ms).Ok?
  {
    forall vs, ns :: SortedPermutation(vs, ws, WorkerSetName) && SortedPermutation(ns, ms, MachineID) ==>
      var r := Assemble(cluster, cp, vs, ns);
      && r.Ok? && r.rendered.docs == Assemble(cluster, cp, ws, ms).rendered.docs
      && r.rendered.hash == Assemble(cluster, cp, ws, ms).rendered.hash
  }

  /** A reserved name shows in every order. */
  lemma {:induction false} ReservedIffMember(ws: seq<Workers>)
    ensures FirstReserved(ws).None? <==> forall w :: w in ws ==> WorkerSetName(w) != RESERVED_NAME
  {
    if ws != [] {
      ReservedIffMember(ws[1..]);
      assert ws == [ws[0]] + ws[1..];
    }
  }

  /**
   For the template itself the condition is weaker: documents and hash are independent of the order the sort
   picks if and only if elements that clash render to the same document.
   */
  lemma TemplateIffClashesAgree(cluster: Cluster, cp: ControlPlane, ws: seq<Workers>, ms: seq<Machine>)
    requires SortedBy(ws, WorkerSetName) && SortedBy(ms, MachineID) && Assemble(cluster, cp, ws, ms).Ok?
    ensures DocumentsIrrelevant(cluster, cp, ws, ms) <==>
            ClashesAgree(ws, WorkerSetName, RenderWorkers) && ClashesAgree(ms, MachineID, RenderMachine)
  {
    hide StringLe, FirstReserved, Map, SortedBy;
    if ClashesAgree(ws, WorkerSetName, RenderWorkers) && ClashesAgree(ms, MachineID, RenderMachine) {
      forall vs, ns | SortedPermutation(vs, ws, WorkerSetName) && SortedPermutation(ns, ms, MachineID)
        ensures Assemble(cluster, cp, vs, ns).Ok?
             && Assemble(cluster, cp, vs, ns).rendered.docs == Assemble(cluster, cp, ws, ms).rendered.docs
      {
        SameDocuments(ws, vs, WorkerSetName, RenderWorkers, DocName);
        SameDocuments(ms, ns, MachineID, RenderMachine, DocName);
        ReservedIffMember(ws);
        ReservedIffMember(vs);
        SameMembers(vs, ws);
      }
    } else {
      OrderShows(cluster, cp, ws, ms);
    }
  }

  lemma OrderShows(cluster: Cluster, cp: ControlPlane, ws: seq<Workers>, ms: seq<Machine>)
    requires SortedBy(ws, WorkerSetName) && SortedBy(ms, MachineID) && Assemble(cluster, cp, ws, ms).Ok?
    requires !(ClashesAgree(ws, WorkerSetName, RenderWorkers) && ClashesAgree(ms, MachineID, RenderMachine))
    ensures !DocumentsIrrelevant(cluster, cp, ws, ms)
  {
    hide StringLe, FirstReserved, Map, ClashesAgree;
    var vs, ns := ws, ms;
    if !ClashesAgree(ws, WorkerSetName, RenderWorkers) {
      vs := DifferentDocuments(ws, WorkerSetName, RenderWorkers);
    } else {
      ns := DifferentDocuments(ms, MachineID, RenderMachine);
    }
    hide SortedBy;
    assert SortedPermutation(vs, ws, WorkerSetName) && SortedPermutation(ns, ms, MachineID);
    assert |vs| == |multiset(vs)| == |multiset(ws)| == |ws|;
    if DocumentsIrrelevant(cluster, cp, ws, ms) {
      DocumentsTell(cluster, cp, ws, ms, vs, ns);
    }
  }

  /** Equal documents come from equal worker documents and equal machine documents. */
  lemma DocumentsTell(cluster: Cluster, cp: ControlPlane, ws: seq<Workers>, ms: seq<Machine>, vs: seq<Workers>, ns: seq<Machine>)
    requires Assemble(cluster, cp, ws, ms).Ok? && Assemble(cluster, cp, vs, ns).Ok? && |vs| == |ws|
    requires Assemble(cluster, cp, ws, ms).rendered.docs == Assemble(cluster, cp, vs, ns).rendered.docs
    ensures Map(RenderWorkers, vs) == Map(RenderWorkers, ws) && Map(RenderMachine, ns) == Map(RenderMachine, ms)
  {
    hide Map, FirstReserved, Distinct;
    var docs := Assemble(cluster, cp, ws, ms).rendered.docs;
    var n := 2 + |ws|;
    assert docs[2..n] == Map(RenderWorkers, ws) && docs[n..] == Map(RenderMachine, ms);
    assert docs[2..n] == Map(RenderWorkers, vs) && docs[n..] == Map(RenderMachine, ns);
  }

  /** Every selected document appears exactly once, after the Cluster and ControlPlane documents. */
  lemma EachDocumentOnce(cluster: Cluster, cp: ControlPlane, workers: seq<Workers>, machines: seq<Machine>,
                         ws: seq<Workers>, ms: seq<Machine>)
    requires SortedPermutation(ws, workers, WorkerSetName) && SortedPermutation(ms, machines, MachineID)
    requires Assemble(cluster, cp, ws, ms).Ok?
    ensures
      var docs := Assemble(cluster, cp, ws, ms).rendered.docs;
      && |docs| >= 2 && docs[0].ClusterDoc? && docs[1].ControlPlaneDoc?
      && multiset(docs[2..]) == multiset(Map(RenderWorkers, workers)) + multiset(Map(RenderMachine, machines))
  {
    hide SortedBy, RenderWorkers, RenderMachine, FirstReserved, Map, Distinct;
    MapPermutation(RenderWorkers, ws, workers);
    MapPermutation(RenderMachine, ms, machines);
    var docs := Assemble(cluster, cp, ws, ms).rendered.docs;
    assert docs[2..] == Map(RenderWorkers, ws) + Map(RenderMachine, ms);
  }
}
