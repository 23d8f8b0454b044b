/**
 The finalizer protocols of OmniCluster, OmniHelmRelease and OmniConnection, interleaved.

 Clusters and Helm releases own something remote; clusters need their connection to remove it.
 Reads, remote calls, scans and finalizer removals are separate steps of one worker per object, so
 user edits and deletion marks may fall between any two of them.
 */
module Lifecycle {
  import opened Kube

  /** An object that owns something remote: a cluster in Omni or a release in a workload cluster. */
  datatype Owner = ClusterObject(name: string) | HelmObject(name: string)

  /** The part of the spec that says what is owned and how it is let go. */
  datatype Duty = Duty(dependency: string, remote: string, orphan: bool, suspend: bool)

  datatype Object = Object(finalizers: set<string>, deleting: bool, duty: Duty)

  datatype Connection = Connection(finalizers: set<string>, deleting: bool)

  /** Something remote under a name, reached through a dependency, put there by an owner. */
  datatype Remote = Remote(dependency: string, name: string, owner: Owner)

  datatype Worker =
    | Idle
    | Resolving(snapshot: Object)
    | Syncing(snapshot: Object)
    | Deleting(snapshot: Object)
    | Releasing(snapshot: Object)

  datatype Scan = NoScan | Scanning | Letting

  datatype World = World(objects: map<Owner, Object>, connections: map<string, Connection>, remote: set<Remote>,
                         workers: map<Owner, Worker>, scans: map<string, Scan>)

  const OPERATOR_FINALIZERS: set<string> := {FINALIZER, LEGACY_FINALIZER}

  /** Clusters honour the legacy finalizer too, Helm releases only the current one. */
  function Honoured(o: Owner): set<string> {
    if o.ClusterObject? then OPERATOR_FINALIZERS else {FINALIZER}
  }

  predicate Held(o: Owner, x: Object) {
    exists f :: f in Honoured(o) && f in x.finalizers
  }

  predicate ConnectionHeld(c: Connection) {
    FINALIZER in c.finalizers || LEGACY_FINALIZER in c.finalizers
  }

  function WorkerOf(w: World, o: Owner): Worker {
    if o in w.workers then w.workers[o] else Idle
  }

  function ScanOf(w: World, c: string): Scan {
    if c in w.scans then w.scans[c] else NoScan
  }

  datatype Step =
    // environment
    | CreateObject(o: Owner, duty: Duty)
    | EditObject(o: Owner, duty: Duty, foreign: set<string>)
    | MarkObject(o: Owner)
    | CreateConnection(c: string)
    | EditConnection(c: string, foreign: set<string>)
    | MarkConnection(c: string)
    // an owner's worker
    | Begin(o: Owner)
    | Resolve(o: Owner, ok: bool)
    | SyncRemote(o: Owner, effect: Effect)
    | DeleteRemote(o: Owner, readable: bool, effect: Effect)
    | Release(o: Owner, ok: bool)
    // a connection's worker
    | BeginScan(c: string)
    | FinishScan(c: string)
    | LetGo(c: string, ok: bool)

  predicate Enabled(w: World, s: Step) {
    match s
    case CreateObject(o, _) => o !in w.objects
    case EditObject(o, _, _) => o in w.objects
    case MarkObject(o) => o in w.objects
    case CreateConnection(c) => c !in w.connections
    case EditConnection(c, _) => c in w.connections
    case MarkConnection(c) => c in w.connections
    case Begin(o) => WorkerOf(w, o).Idle?
    case Resolve(o, _) => WorkerOf(w, o).Resolving?
    case SyncRemote(o, _) => WorkerOf(w, o).Syncing?
    case DeleteRemote(o, _, _) => WorkerOf(w, o).Deleting?
    case Release(o, ok) =>
      // OmniCluster updates the object it read; OmniHelmRelease re-reads and retries.
      var p := WorkerOf(w, o);
      p.Releasing? && (ok && o.ClusterObject? ==> o in w.objects && w.objects[o] == p.snapshot)
    case BeginScan(c) => ScanOf(w, c).NoScan?
    case FinishScan(c) => ScanOf(w, c).Scanning?
    case LetGo(c, _) => ScanOf(w, c).Letting?
  }

  /** Storing an object under deletion with no finalizer left removes it. */
  function Put(objects: map<Owner, Object>, o: Owner, x: Object): map<Owner, Object> {
    if x.deleting && x.finalizers == {} then objects - {o} else objects[o := x]
  }

  function PutConnection(connections: map<string, Connection>, c: string, x: Connection): map<string, Connection> {
    if x.deleting && x.finalizers == {} then connections - {c} else connections[c := x]
  }

  function Goto(w: World, o: Owner, p: Worker): World {
    w.(workers := w.workers[o := p])
  }

  /** Users manage their own finalizers, not the operator's. */
  function Refinalized(current: set<string>, foreign: set<string>): set<string> {
    (current * OPERATOR_FINALIZERS) + (foreign - OPERATOR_FINALIZERS)
  }

  /** Only the objects and the worker of o differ. */
  ghost predicate OnlyOwner(w: World, v: World, o: Owner) {
    && v == w.(objects := v.objects, workers := v.workers)
    && (forall p :: p != o ==> (p in v.objects <==> p in w.objects) && WorkerOf(v, p) == WorkerOf(w, p))
    && (forall p :: p != o && p in w.objects ==> v.objects[p] == w.objects[p])
  }

  function Begun(w: World, o: Owner): (r: World)
    ensures OnlyOwner(w, r, o)
  {
    if o !in w.objects then Goto(w, o, Idle)
    else
      var x := w.objects[o];
      if x.deleting then
        if !Held(o, x) then Goto(w, o, Idle)
        else if x.duty.orphan then Goto(w, o, Releasing(x))
        else Goto(w, o, Deleting(x))
      else if !Held(o, x) then
        Goto(w, o, Idle).(objects := w.objects[o := x.(finalizers := x.finalizers + {FINALIZER})])
      else if x.duty.suspend then Goto(w, o, Idle)
      else Goto(w, o, Resolving(x))
  }

  /** What a remote call needs: a cluster its connection, a Helm release its kubeconfig. */
  predicate Reachable(w: World, o: Owner, x: Object, readable: bool) {
    if o.ClusterObject? then x.duty.dependency in w.connections else readable
  }

  function Without(remote: set<Remote>, d: Duty): set<Remote> {
    set r | r in remote && !(r.dependency == d.dependency && r.name == d.remote)
  }

  function Deleted(w: World, o: Owner, x: Object, readable: bool, e: Effect): (r: World)
    ensures r == w.(remote := r.remote, workers := r.workers) && r.remote <= w.remote
    ensures OnlyOwner(w, r.(remote := w.remote), o)
  {
    if !Reachable(w, o, x, readable) then Goto(w, o, Idle)
    else
      Goto(w, o, if e.Done? then Releasing(x) else Idle)
        .(remote := if e.Refused? then w.remote else Without(w.remote, x.duty))
  }

  function Released(w: World, o: Owner, ok: bool): (r: World)
    ensures OnlyOwner(w, r, o)
    ensures forall p :: p in r.objects ==> p in w.objects && r.objects[p].duty == w.objects[p].duty
  {
    if !ok || o !in w.objects then Goto(w, o, Idle)
    else
      var x := w.objects[o];
      Goto(w, o, Idle).(objects := Put(w.objects, o, x.(finalizers := x.finalizers - Honoured(o))))
  }

  predicate References(o: Owner, x: Object, c: string) {
    o.ClusterObject? && x.duty.dependency == c
  }

  /** referencingClusterNames: some stored cluster names this connection. */
  predicate Referenced(w: World, c: string) {
    exists o :: o in w.objects && References(o, w.objects[o], c)
  }

  /** Only connections and their scans differ. */
  predicate OnlyConnections(w: World, v: World) {
    v == w.(connections := v.connections, scans := v.scans)
  }

  function Scanned(w: World, c: string): (r: World)
    ensures OnlyConnections(w, r)
  {
    w.(scans := w.scans[c := if Referenced(w, c) then NoScan else Letting])
  }

  function LetGone(w: World, c: string, ok: bool): (r: World)
    ensures OnlyConnections(w, r)
  {
    var v := w.(scans := w.scans[c := NoScan]);
    if !ok || c !in w.connections then v
    else
      var x := w.connections[c];
      v.(connections := PutConnection(w.connections, c, x.(finalizers := x.finalizers - OPERATOR_FINALIZERS)))
  }

  function ScanBegun(w: World, c: string): (r: World)
    ensures OnlyConnections(w, r)
  {
    if c !in w.connections then w
    else
      var x := w.connections[c];
      if x.deleting then
        if ConnectionHeld(x) then w.(scans := w.scans[c := Scanning]) else w
      else if ConnectionHeld(x) then w
      else w.(connections := w.connections[c := x.(finalizers := x.finalizers + {FINALIZER})])
  }

  function Apply(w: World, s: Step): World
    requires Enabled(w, s)
  {
    match s
    case CreateObject(o, duty) => w.(objects := w.objects[o := Object({}, false, duty)])
    case EditObject(o, duty, foreign) =>
      var x := w.objects[o];
      w.(objects := Put(w.objects, o, Object(Refinalized(x.finalizers, foreign), x.deleting, duty)))
    case MarkObject(o) => w.(objects := Put(w.objects, o, w.objects[o].(deleting := true)))
    case CreateConnection(c) => w.(connections := w.connections[c := Connection({}, false)])
    case EditConnection(c, foreign) =>
      var x := w.connections[c];
      w.(connections := PutConnection(w.connections, c, Connection(Refinalized(x.finalizers, foreign), x.deleting)))
    case MarkConnection(c) => w.(connections := PutConnection(w.connections, c, w.connections[c].(deleting := true)))
    case Begin(o) => Begun(w, o)
    case Resolve(o, ok) =>
      var x := w.workers[o].snapshot;
      Goto(w, o, if ok && (o.ClusterObject? ==> x.duty.dependency in w.connections) then Syncing(x) else Idle)
    case SyncRemote(o, e) =>
      var d := w.workers[o].snapshot.duty;
      Goto(w, o, Idle).(remote := if e.Refused? then w.remote else w.remote + {Remote(d.dependency, d.remote, o)})
    case DeleteRemote(o, readable, e) => Deleted(w, o, w.workers[o].snapshot, readable, e)
    case Release(o, ok) => Released(w, o, ok)
    case BeginScan(c) => ScanBegun(w, c)
    case FinishScan(c) => Scanned(w, c)
    case LetGo(c, ok) => LetGone(w, c, ok)
  }

  ghost predicate IsRun(ws: seq<World>, steps: seq<Step>) {
    && |ws| == |steps| + 1
    && forall i :: 0 <= i < |steps| ==> Enabled(ws[i], steps[i]) && ws[i + 1] == Apply(ws[i], steps[i])
  }

  predicate Init(w: World) {
    w.objects == map[] && w.remote == {} && w.workers == map[] && w.scans == map[]
  }

  // ---------------------------------------------------------------- remote cleanup

  predicate SameDuty(d: Duty, e: Duty) {
    d.dependency == e.dependency && d.remote == e.remote && d.orphan == e.orphan
  }

  /** Users keep this owner's remote name, dependency and (non-orphan) policy; everything else is free. */
  predicate Steadfast(w: World, s: Step, o: Owner)
    requires Enabled(w, s)
  {
    && (s.CreateObject? && s.o == o ==> !s.duty.orphan)
    && (s.EditObject? && s.o == o ==> SameDuty(s.duty, w.objects[o].duty))
  }

  /** What the owner's worker may rely on while it is busy. */
  predicate WorkerSound(w: World, o: Owner) {
    var p := WorkerOf(w, o);
    p.Idle? ||
    (&& o in w.objects && Held(o, w.objects[o])
     && SameDuty(p.snapshot.duty, w.objects[o].duty)
     && (p.Deleting? || p.Releasing? ==> w.objects[o].deleting)
     && (p.Releasing? ==> forall r :: r in w.remote ==> r.owner != o))
  }

  /** Whatever the owner has put there, the owner still exists, finalized, and can still name it. */
  predicate CleanupInv(w: World, o: Owner) {
    && (forall r :: r in w.remote && r.owner == o ==>
          && o in w.objects && Held(o, w.objects[o])
          && r.dependency == w.objects[o].duty.dependency && r.name == w.objects[o].duty.remote)
    && (o in w.objects ==> !w.objects[o].duty.orphan)
    && WorkerSound(w, o)
  }

  lemma CleanupBegin(w: World, o: Owner)
    requires CleanupInv(w, o) && Enabled(w, Begin(o))
    ensures CleanupInv(Apply(w, Begin(o)), o)
  {
    var v := Apply(w, Begin(o));
    if o in w.objects {
      assert FINALIZER in Honoured(o);
      assert Held(o, w.objects[o]) ==> Held(o, v.objects[o]);
    }
  }

  lemma CleanupRelease(w: World, o: Owner, ok: bool)
    requires CleanupInv(w, o) && Enabled(w, Release(o, ok))
    ensures CleanupInv(Apply(w, Release(o, ok)), o)
  {
  }

  lemma CleanupEdit(w: World, s: Step, o: Owner)
    requires CleanupInv(w, o) && Enabled(w, s) && Steadfast(w, s, o)
    requires (s.CreateObject? || s.EditObject? || s.MarkObject?) && s.o == o
    ensures CleanupInv(Apply(w, s), o)
  {
    var v := Apply(w, s);
    if o in w.objects {
      var x := w.objects[o];
      if Held(o, x) {
        var f :| f in Honoured(o) && f in x.finalizers;
        assert o in v.objects && f in v.objects[o].finalizers;
      }
    }
  }

  lemma CleanupWork(w: World, s: Step, o: Owner)
    requires CleanupInv(w, o) && Enabled(w, s) && (s.Resolve? || s.SyncRemote? || s.DeleteRemote?) && s.o == o
    ensures CleanupInv(Apply(w, s), o)
  {
    hide Held;
  }

  lemma CleanupOther(w: World, s: Step, o: Owner)
    requires CleanupInv(w, o) && Enabled(w, s)
    requires s.CreateConnection? || s.EditConnection? || s.MarkConnection? || s.BeginScan? || s.FinishScan? || s.LetGo?
      || s.o != o
    ensures CleanupInv(Apply(w, s), o)
  {
    hide Held, Honoured, Apply, Enabled;
    OtherUntouched(w, s, o);
  }

  lemma OtherUntouched(w: World, s: Step, o: Owner)
    requires Enabled(w, s)
    requires s.CreateConnection? || s.EditConnection? || s.MarkConnection? || s.BeginScan? || s.FinishScan? || s.LetGo?
      || s.o != o
    ensures
      var v := Apply(w, s);
      && (o in v.objects <==> o in w.objects)
      && (o in w.objects ==> v.objects[o] == w.objects[o])
      && WorkerOf(v, o) == WorkerOf(w, o)
      && forall r :: r in v.remote && r.owner == o ==> r in w.remote
  {
    hide Begun, Deleted, Released, Scanned, LetGone, ScanBegun, PutConnection, Refinalized;
  }

  lemma CleanupStep(w: World, s: Step, o: Owner)
    requires CleanupInv(w, o) && Enabled(w, s) && Steadfast(w, s, o)
    ensures CleanupInv(Apply(w, s), o)
  {
    hide CleanupInv, Apply;
    match s
    case CreateObject(p, _) => if p == o { CleanupEdit(w, s, o); } else { CleanupOther(w, s, o); }
    case EditObject(p, _, _) => if p == o { CleanupEdit(w, s, o); } else { CleanupOther(w, s, o); }
    case MarkObject(p) => if p == o { CleanupEdit(w, s, o); } else { CleanupOther(w, s, o); }
    case Begin(p) => if p == o { CleanupBegin(w, o); } else { CleanupOther(w, s, o); }
    case Resolve(p, _) => if p == o { CleanupWork(w, s, o); } else { CleanupOther(w, s, o); }
    case SyncRemote(p, _) => if p == o { CleanupWork(w, s, o); } else { CleanupOther(w, s, o); }
    case DeleteRemote(p, _, _) => if p == o { CleanupWork(w, s, o); } else { CleanupOther(w, s, o); }
    case Release(p, ok) => if p == o { CleanupRelease(w, o, ok); } else { CleanupOther(w, s, o); }
    case _ => CleanupOther(w, s, o);
  }

  ghost predicate SteadfastRun(ws: seq<World>, steps: seq<Step>, o: Owner) {
    IsRun(ws, steps) && forall i :: 0 <= i < |steps| ==> Enabled(ws[i], steps[i]) && Steadfast(ws[i], steps[i], o)
  }

  lemma {:induction false} CleanupAlways(ws: seq<World>, steps: seq<Step>, o: Owner, n: nat)
    requires SteadfastRun(ws, steps, o) && n < |ws| && Init(ws[0])
    ensures CleanupInv(ws[n], o)
    decreases n
  {
    hide Apply, Enabled, Steadfast;
    if n > 0 {
      CleanupAlways(ws, steps, o, n - 1);
      hide CleanupInv;
      CleanupStep(ws[n - 1], steps[n - 1], o);
    }
  }

  /**
   Remote cleanup: on every run in which users keep an owner's remote name, dependency and
   non-orphan policy, an owner that has vanished has left nothing remote.  The deletion mark may
   arrive anywhere, and remote calls may fail with or without effect.
   */
  lemma VanishedLeavesNothingRemote(ws: seq<World>, steps: seq<Step>, o: Owner, n: nat)
    requires SteadfastRun(ws, steps, o) && n < |ws| && Init(ws[0]) && o !in ws[n].objects
    ensures forall r :: r in ws[n].remote ==> r.owner != o
  {
    CleanupAlways(ws, steps, o, n);
    hide Apply, Enabled, Steadfast, SteadfastRun;
  }

  // ---------------------------------------------------------------- connections outlive their users

  /** No cluster newly references a connection that is under deletion. */
  predicate NoLateReference(w: World, s: Step, c: string)
    requires Enabled(w, s)
  {
    c in w.connections && w.connections[c].deleting ==>
      && (s.CreateObject? && s.o.ClusterObject? ==> s.duty.dependency != c)
      && (s.EditObject? && s.o.ClusterObject? && s.duty.dependency == c ==> w.objects[s.o].duty.dependency == c)
  }

  /** Between the scan and the release, a connection is under deletion and nothing references it. */
  predicate ScanInv(w: World, c: string) {
    && (!ScanOf(w, c).NoScan? ==>
          c in w.connections && w.connections[c].deleting && ConnectionHeld(w.connections[c]))
    && (ScanOf(w, c).Letting? ==> forall o :: o in w.objects ==> !References(o, w.objects[o], c))
  }

  /** A cluster that references c after a step either referenced it before or newly does. */
  lemma ReferenceAfter(w: World, s: Step, c: string, o: Owner)
    requires Enabled(w, s) && o in Apply(w, s).objects && References(o, Apply(w, s).objects[o], c)
    ensures
      || (o in w.objects && References(o, w.objects[o], c))
      || (s.CreateObject? && s.o == o && s.duty.dependency == c)
      || (s.EditObject? && s.o == o && o in w.objects && s.duty.dependency == c)
  {
    hide Deleted, Released, Referenced;
  }

  /** How a connection and its worker can change in one step. */
  lemma ConnectionAfter(w: World, s: Step, c: string)
    requires Enabled(w, s)
    ensures
      var v := Apply(w, s);
      && (c in w.connections && ConnectionHeld(w.connections[c]) && !(s.LetGo? && s.c == c) ==>
            && c in v.connections && ConnectionHeld(v.connections[c])
            && (w.connections[c].deleting ==> v.connections[c].deleting))
      && (ScanOf(v, c) == ScanOf(w, c)
          || (s == BeginScan(c) && ScanOf(v, c).Scanning? && v.connections == w.connections
              && c in w.connections && w.connections[c].deleting && ConnectionHeld(w.connections[c]))
          || (s == FinishScan(c) && ScanOf(w, c).Scanning? && v.objects == w.objects && (ScanOf(v, c).Letting? ==> !Referenced(w, c)))
          || (s.LetGo? && ScanOf(v, c).NoScan?))
      && (s.LetGo? && s.c == c ==> ScanOf(w, c).Letting? && ScanOf(v, c).NoScan?)
  {
    hide Begun, Deleted, Released, Referenced;
  }

  lemma ScanStep(w: World, s: Step, c: string)
    requires ScanInv(w, c) && Enabled(w, s) && NoLateReference(w, s, c)
    ensures ScanInv(Apply(w, s), c)
  {
    hide Apply, Enabled, ConnectionHeld;
    var v := Apply(w, s);
    ConnectionAfter(w, s, c);
    if ScanOf(v, c).Letting? {
      forall o | o in v.objects ensures !References(o, v.objects[o], c) {
        if References(o, v.objects[o], c) {
          ReferenceAfter(w, s, c, o);
        }
      }
    }
  }

  ghost predicate NoLateReferences(ws: seq<World>, steps: seq<Step>, c: string) {
    IsRun(ws, steps) && forall i :: 0 <= i < |steps| ==> Enabled(ws[i], steps[i]) && NoLateReference(ws[i], steps[i], c)
  }

  lemma {:induction false} ScanAlways(ws: seq<World>, steps: seq<Step>, c: string, n: nat)
    requires NoLateReferences(ws, steps, c) && n < |ws| && Init(ws[0])
    ensures ScanInv(ws[n], c)
    decreases n
  {
    hide Apply, Enabled, NoLateReference;
    if n > 0 {
      ScanAlways(ws, steps, c, n - 1);
      hide ScanInv;
      ScanStep(ws[n - 1], steps[n - 1], c);
    }
  }

  /**
   A connection outlives its users: if no cluster newly references a connection under deletion,
   then from any moment at which the connection is finalized and a cluster references it, the
   connection stays, finalized, for as long as that cluster goes on referencing it.
   */
  lemma {:induction false} ConnectionOutlivesUsers(ws: seq<World>, steps: seq<Step>, c: string, o: Owner, i: nat, n: nat)
    requires NoLateReferences(ws, steps, c) && i <= n < |ws| && Init(ws[0])
    requires c in ws[i].connections && ConnectionHeld(ws[i].connections[c])
    requires forall j :: i <= j <= n ==> o in ws[j].objects && References(o, ws[j].objects[o], c)
    ensures c in ws[n].connections && ConnectionHeld(ws[n].connections[c])
    decreases n
  {
    hide Apply, Enabled, NoLateReference, ConnectionHeld, References;
    if i < n {
      ConnectionOutlivesUsers(ws, steps, c, o, i, n - 1);
      ScanAlways(ws, steps, c, n - 1);
      ConnectionAfter(ws[n - 1], steps[n - 1], c);
    }
  }

  /** So a cluster's finalizer always finds the connection it needs to delete the remote cluster. */
  lemma ClusterFinalizerFindsConnection(ws: seq<World>, steps: seq<Step>, o: Owner, i: nat, n: nat)
    requires SteadfastRun(ws, steps, o) && i <= n < |steps| && Init(ws[0]) && o.ClusterObject?
    requires forall j :: i <= j <= n ==> o in ws[j].objects
    requires
      var c := ws[i].objects[o].duty.dependency;
      NoLateReferences(ws, steps, c) && c in ws[i].connections && ConnectionHeld(ws[i].connections[c])
    requires steps[n].DeleteRemote? && steps[n].o == o && o in ws[n].workers && ws[n].workers[o].Deleting?
    ensures Reachable(ws[n], o, ws[n].workers[o].snapshot, steps[n].readable)
  {
    hide Apply, Enabled, Steadfast, NoLateReference, ConnectionHeld;
    var c := ws[i].objects[o].duty.dependency;
    forall j | i <= j <= n ensures References(o, ws[j].objects[o], c) {
      DependencyFixed(ws, steps, o, i, j);
    }
    ConnectionOutlivesUsers(ws, steps, c, o, i, n);
    CleanupAlways(ws, steps, o, n);
  }

  lemma {:induction false} DependencyFixed(ws: seq<World>, steps: seq<Step>, o: Owner, i: nat, j: nat)
    requires SteadfastRun(ws, steps, o) && i <= j < |ws|
    requires forall m :: i <= m <= j ==> o in ws[m].objects
    ensures ws[j].objects[o].duty.dependency == ws[i].objects[o].duty.dependency
    decreases j
  {
    hide Apply, Enabled, Steadfast;
    if i < j {
      DependencyFixed(ws, steps, o, i, j - 1);
      assert ws[j] == Apply(ws[j - 1], steps[j - 1]);
      DutyAfter(ws[j - 1], steps[j - 1], o);
    }
  }

  lemma DutyAfter(w: World, s: Step, o: Owner)
    requires Enabled(w, s) && Steadfast(w, s, o) && o in w.objects && o in Apply(w, s).objects
    ensures Apply(w, s).objects[o].duty.dependency == w.objects[o].duty.dependency
  {
    hide Deleted, Released, Referenced;
  }

  // ---------------------------------------------------------------- the guards are needed

  /** Once something remote exists, an edit keeps the owner able to clean it up exactly when it keeps the duty. */
  lemma CleanupGuardIsExact(w: World, s: Step, o: Owner, r: Remote)
    requires CleanupInv(w, o) && Enabled(w, s) && s.EditObject? && s.o == o && r in w.remote && r.owner == o
    ensures CleanupInv(Apply(w, s), o) <==> Steadfast(w, s, o)
  {
    if Steadfast(w, s, o) {
      CleanupStep(w, s, o);
    } else {
      var v := Apply(w, s);
      assert r in v.remote;
    }
  }

  /** Between the scan and the release, exactly the steps that bring no new reference are safe. */
  lemma ScanGuardIsExact(w: World, s: Step, c: string)
    requires ScanInv(w, c) && ScanOf(w, c).Letting? && Enabled(w, s) && s != LetGo(c, true) && s != LetGo(c, false)
    requires s.EditObject? ==> s.o in Apply(w, s).objects
    ensures ScanInv(Apply(w, s), c) <==> NoLateReference(w, s, c)
  {
    hide Begun, Deleted, Released, Referenced, ConnectionHeld;
    if NoLateReference(w, s, c) {
      ScanStep(w, s, c);
    } else {
      var v := Apply(w, s);
      assert s.o in v.objects && References(s.o, v.objects[s.o], c);
    }
  }

  lemma Extend(ws: seq<World>, steps: seq<Step>, s: Step, v: World) returns (vs: seq<World>, ss: seq<Step>)
    requires IsRun(ws, steps) && Enabled(ws[|steps|], s) && v == Apply(ws[|steps|], s)
    ensures IsRun(vs, ss) && vs[0] == ws[0] && vs[|ss|] == v && ss == steps + [s]
  {
    hide Apply, Enabled;
    vs, ss := ws + [v], steps + [s];
    forall i | 0 <= i < |ss| ensures Enabled(vs[i], ss[i]) && vs[i + 1] == Apply(vs[i], ss[i]) {
      if i < |steps| {
        assert vs[i] == ws[i] && vs[i + 1] == ws[i + 1] && ss[i] == steps[i];
      }
    }
  }

  const EMPTY := World(map[], map[], {}, map[], map[])

  /** A connection created, finalized and marked. */
  lemma MarkedConnection(c: string) returns (ws: seq<World>, steps: seq<Step>)
    ensures IsRun(ws, steps) && ws[0] == EMPTY
    ensures ws[|steps|] == EMPTY.(connections := map[c := Connection({FINALIZER}, true)])
  {
    assert {} + {FINALIZER} == {FINALIZER};
    ws, steps := [EMPTY], [];
    ws, steps := Extend(ws, steps, CreateConnection(c), EMPTY.(connections := map[c := Connection({}, false)]));
    ws, steps := Extend(ws, steps, BeginScan(c), EMPTY.(connections := map[c := Connection({FINALIZER}, false)]));
    ws, steps := Extend(ws, steps, MarkConnection(c), EMPTY.(connections := map[c := Connection({FINALIZER}, true)]));
  }

  /** And then found without references. */
  lemma ScannedConnection(c: string) returns (ws: seq<World>, steps: seq<Step>)
    ensures IsRun(ws, steps) && ws[0] == EMPTY
    ensures ws[|steps|] == EMPTY.(connections := map[c := Connection({FINALIZER}, true)], scans := map[c := Letting])
  {
    ws, steps := MarkedConnection(c);
    var marked := ws[|steps|];
    ws, steps := Extend(ws, steps, BeginScan(c), marked.(scans := map[c := Scanning]));
    ws, steps := Extend(ws, steps, FinishScan(c), marked.(scans := map[c := Letting]));
  }

  /**
   A cluster created between the scan and the release of its connection is left without it: the
   connection goes although the cluster references it.
   */
  lemma LateReferenceLosesConnection(c: string, o: Owner) returns (ws: seq<World>, steps: seq<Step>)
    requires o.ClusterObject?
    ensures IsRun(ws, steps) && Init(ws[0])
    ensures c !in ws[|steps|].connections && o in ws[|steps|].objects
    ensures References(o, ws[|steps|].objects[o], c)
  {
    hide Referenced;
    ws, steps := ScannedConnection(c);
    var scanned := ws[|steps|];
    var objects := map[o := Object({}, false, Duty(c, "remote", false, false))];
    ws, steps := Extend(ws, steps, CreateObject(o, objects[o].duty), scanned.(objects := objects));
    ws, steps := Extend(ws, steps, LetGo(c, true), World(objects, map[], {}, map[], map[c := NoScan]));
  }

  const FIRST := Duty("k", "first", false, false)
  const SECOND_NAME := Duty("k", "second", false, false)

  /** An owner created, finalized and read. */
  lemma ReadOwner(o: Owner) returns (ws: seq<World>, steps: seq<Step>)
    requires o.HelmObject?
    ensures IsRun(ws, steps) && ws[0] == EMPTY
    ensures ws[|steps|] == EMPTY.(objects := map[o := Object({FINALIZER}, false, FIRST)],
                                  workers := map[o := Resolving(Object({FINALIZER}, false, FIRST))])
  {
    var x := Object({FINALIZER}, false, FIRST);
    var held := EMPTY.(objects := map[o := x], workers := map[o := Idle]);
    assert {} + {FINALIZER} == {FINALIZER} && FINALIZER in Honoured(o) && Held(o, x);
    ws, steps := [EMPTY], [];
    ws, steps := Extend(ws, steps, CreateObject(o, FIRST), EMPTY.(objects := map[o := Object({}, false, FIRST)]));
    ws, steps := Extend(ws, steps, Begin(o), held);
    ws, steps := Extend(ws, steps, Begin(o), held.(workers := map[o := Resolving(x)]));
  }

  /** And then synced under its first name. */
  lemma SyncedOwner(o: Owner) returns (ws: seq<World>, steps: seq<Step>)
    requires o.HelmObject?
    ensures IsRun(ws, steps) && ws[0] == EMPTY
    ensures ws[|steps|] == World(map[o := Object({FINALIZER}, false, FIRST)], map[], {Remote("k", "first", o)}, map[o := Idle], map[])
  {
    ws, steps := ReadOwner(o);
    var read, x := ws[|steps|], Object({FINALIZER}, false, FIRST);
    ws, steps := Extend(ws, steps, Resolve(o, true), read.(workers := map[o := Syncing(x)]));
    ws, steps := Extend(ws, steps, SyncRemote(o, Done), read.(workers := map[o := Idle], remote := {Remote("k", "first", o)}));
  }

  /** And then renamed and marked. */
  lemma RenamedOwner(o: Owner) returns (ws: seq<World>, steps: seq<Step>)
    requires o.HelmObject?
    ensures IsRun(ws, steps) && ws[0] == EMPTY
    ensures ws[|steps|] == World(map[o := Object({FINALIZER}, true, SECOND_NAME)], map[], {Remote("k", "first", o)}, map[o := Idle], map[])
  {
    ws, steps := SyncedOwner(o);
    var synced, x := ws[|steps|], Object({FINALIZER}, false, SECOND_NAME);
    assert Refinalized({FINALIZER}, {}) == {FINALIZER};
    ws, steps := Extend(ws, steps, EditObject(o, SECOND_NAME, {}), synced.(objects := map[o := x]));
    ws, steps := Extend(ws, steps, MarkObject(o), synced.(objects := map[o := x.(deleting := true)]));
  }

  /** A renamed owner forgets what it put under the old name: it can vanish and leave that behind. */
  lemma RenameLeavesRemoteBehind(o: Owner) returns (ws: seq<World>, steps: seq<Step>)
    requires o.HelmObject?
    ensures IsRun(ws, steps) && Init(ws[0])
    ensures o !in ws[|steps|].objects && Remote("k", "first", o) in ws[|steps|].remote
  {
    ws, steps := RenamedOwner(o);
    var doomed, x := ws[|steps|], Object({FINALIZER}, true, SECOND_NAME);
    assert FINALIZER in Honoured(o) && Held(o, x);
    ws, steps := Extend(ws, steps, Begin(o), doomed.(workers := map[o := Deleting(x)]));
    ws, steps := Extend(ws, steps, DeleteRemote(o, true, Done), doomed.(workers := map[o := Releasing(x)]));
    ws, steps := Extend(ws, steps, Release(o, true), doomed.(objects := map[]));
  }
}
