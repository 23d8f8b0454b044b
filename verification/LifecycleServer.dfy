/**
 The finalizer protocols as the program runs them: objects, connections and remote things updated in
 place.  Each uninterrupted pass is a run of the lifecycle machine.
 */
module LifecycleServer {
  import opened Kube
  import opened Lifecycle
  import opened LifecycleFrames

  /** How the API server, Omni and the workload cluster answer during one pass. */
  datatype Foreign = Foreign(resolved: bool, sync: Effect, readable: bool, delete: Effect, release: bool)

  /** Releasing a stored owner: the operator's finalizers go, and with no other left so does the owner. */
  ghost predicate LetsGo(before: map<Owner, Object>, after: map<Owner, Object>, o: Owner, released: bool)
    requires o in before
  {
    var rest := before[o].finalizers - Managed(o);
    && (!released ==> after == before)
    && (released ==> after - {o} == before - {o})
    && (released ==> (o in after <==> rest != {}))
    && (released && rest != {} ==> after[o] == before[o].(finalizers := rest))
  }

  /** Exactly what is reached through this dependency under this name is gone. */
  ghost predicate Clears(before: set<Remote>, after: set<Remote>, dependency: string, name: string) {
    forall r :: r in after <==> r in before && !(r.dependency == dependency && r.name == name)
  }

  /**
   A pass over an owner under deletion: one that the operator does not hold is left alone; an Orphan one is released and
   what it put in place stays; any other is released only after what it put in place has gone.
   */
  ghost predicate Ends(before: World, after: World, o: Owner, f: Foreign)
    requires o in before.objects
  {
    var x := before.objects[o];
    var reached := if o.ClusterObject? then x.duty.dependency in before.connections else f.readable;
    if !Marked(o, x) then after.objects == before.objects && after.remote == before.remote
    else if x.duty.orphan then after.remote == before.remote && LetsGo(before.objects, after.objects, o, f.release)
    else
      && LetsGo(before.objects, after.objects, o, reached && f.delete.Done? && f.release)
      && (!reached || f.delete.Refused? ==> after.remote == before.remote)
      && (reached && !f.delete.Refused? ==> Clears(before.remote, after.remote, x.duty.dependency, x.duty.remote))
  }

  /**
   A pass over a live owner: one that the operator does not hold gets its finalizer and no more; a suspended or
   unresolved one is left alone; any other has its one remote thing put in place.
   */
  ghost predicate Lives(before: World, after: World, o: Owner, f: Foreign)
    requires o in before.objects
  {
    var x := before.objects[o];
    var resolved := f.resolved && (o.ClusterObject? ==> x.duty.dependency in before.connections);
    if !Marked(o, x) then
      after.remote == before.remote && after.objects == before.objects[o := x.(finalizers := x.finalizers + {FINALIZER})]
    else
      && after.objects == before.objects
      && (x.duty.suspend || !resolved || f.sync.Refused? ==> after.remote == before.remote)
      && (!x.duty.suspend && resolved && !f.sync.Refused? ==>
            after.remote == before.remote + {Remote(x.duty.dependency, x.duty.remote, o)})
  }

  /** A connection that a pass lets go loses the operator's finalizers, and with no other left it is gone. */
  ghost predicate Drops(before: map<string, Connection>, after: map<string, Connection>, c: string, released: bool)
    requires c in before
  {
    var rest := before[c].finalizers - {FINALIZER, LEGACY_FINALIZER};
    && (!released ==> after == before)
    && (released ==> after - {c} == before - {c})
    && (released ==> (c in after <==> rest != {}))
    && (released && rest != {} ==> after[c] == before[c].(finalizers := rest))
  }

  /** ContainsFinalizer, for a cluster with either name. */
  method HasFinalizer(o: Owner, x: Object) returns (held: bool)
    ensures held <==> Marked(o, x)
  {
    held := FINALIZER in x.finalizers || (o.ClusterObject? && LEGACY_FINALIZER in x.finalizers);
  }

  class Server {
    var objects: map<Owner, Object>
    var connections: map<string, Connection>
    var remote: set<Remote>
    ghost var workers: map<Owner, Worker>
    ghost var scans: map<string, Scan>

    constructor ()
      ensures Init(State()) && connections == map[]
    {
      objects, connections, remote, workers, scans := map[], map[], {}, map[], map[];
    }

    ghost function State(): World
      reads this
    {
      World(objects, connections, remote, workers, scans)
    }

    /** removeFinalizer of an owner: the current finalizer, and for clusters the legacy one. */
    method ReleaseOwner(o: Owner, x: Object, ok: bool, ghost ws0: seq<World>, ghost steps0: seq<Step>)
      returns (ghost ws: seq<World>, ghost steps: seq<Step>)
      requires o in objects && objects[o] == x && x.deleting
      requires WorkerOf(State(), o) == Releasing(x) && IsRun(ws0, steps0) && ws0[|steps0|] == State()
      modifies this
      ensures IsRun(ws, steps) && ws[0] == ws0[0] && ws[|steps|] == State() && WorkerOf(State(), o) == Idle
      ensures LetsGo(old(objects), objects, o, ok)
      ensures remote == old(remote) && connections == old(connections)
    {
      workers := workers[o := Idle];
      if ok {
        var rest := if o.ClusterObject? then x.finalizers - {FINALIZER, LEGACY_FINALIZER} else x.finalizers - {FINALIZER};
        if rest == {} {
          objects := objects - {o};
        } else {
          objects := objects[o := x.(finalizers := rest)];
        }
      }
      ws, steps := Extend(ws0, steps0, Release(o, ok), State());
    }

    /** The rest of reconcileDelete, for an owner that is held and not Orphan. */
    method RemoveAndRelease(o: Owner, x: Object, f: Foreign, ghost ws0: seq<World>, ghost steps0: seq<Step>)
      returns (ghost ws: seq<World>, ghost steps: seq<Step>)
      requires o in objects && objects[o] == x && x.deleting
      requires WorkerOf(State(), o) == Deleting(x) && IsRun(ws0, steps0) && ws0[|steps0|] == State()
      modifies this
      ensures IsRun(ws, steps) && ws[0] == ws0[0] && ws[|steps|] == State() && WorkerOf(State(), o) == Idle
      ensures Marked(o, x) && !x.duty.orphan ==> Ends(old(State()), State(), o, f)
      ensures connections == old(connections)
    {
      hide Apply, Enabled, OnlyOwner, LetsGo, Marked, Clears;
      StaysIf(objects, o);
      ClearsIs(remote, x.duty);
      ghost var before := State();
      DeleteIs(before, o, x, f.readable, f.delete);
      if (o.ClusterObject? && x.duty.dependency !in connections) || (o.HelmObject? && !f.readable) {
        workers := workers[o := Idle];
        ws, steps := Extend(ws0, steps0, DeleteRemote(o, f.readable, f.delete), State());
        return;
      }
      if !f.delete.Refused? {
        remote := set r | r in remote && !(r.dependency == x.duty.dependency && r.name == x.duty.remote);
      }
      workers := workers[o := if f.delete.Done? then Releasing(x) else Idle];
      ws, steps := Extend(ws0, steps0, DeleteRemote(o, f.readable, f.delete), State());
      if f.delete.Done? {
        ws, steps := ReleaseOwner(o, x, f.release, ws, steps);
      }
    }

    /** reconcileDelete of a cluster or a Helm release. */
    method ReconcileDelete(o: Owner, x: Object, f: Foreign) returns (ghost ws: seq<World>, ghost steps: seq<Step>)
      requires WorkerOf(State(), o) == Idle && o in objects && objects[o] == x && x.deleting
      modifies this
      ensures IsRun(ws, steps) && ws[0] == old(State()) && ws[|steps|] == State() && WorkerOf(State(), o) == Idle
      ensures connections == old(connections)
      ensures Ends(old(State()), State(), o, f)
    {
      hide Apply, Enabled, OnlyOwner, Held, Honoured, LetsGo, Clears, Marked;
      ghost var before := State();
      ws, steps := [before], [];
      BeginIs(before, o);
      HeldIff(o, x);
      var held := HasFinalizer(o, x);
      if !held {
        workers := workers[o := Idle];
        ws, steps := Extend(ws, steps, Begin(o), State());
        return;
      }
      if x.duty.orphan {
        workers := workers[o := Releasing(x)];
        assert State() == Begun(before, o);
        ws, steps := Extend(ws, steps, Begin(o), State());
        ws, steps := ReleaseOwner(o, x, f.release, ws, steps);
        return;
      }
      workers := workers[o := Deleting(x)];
      assert State() == Begun(before, o);
      ws, steps := Extend(ws, steps, Begin(o), State());
      ghost var deleting := State();
      ws, steps := RemoveAndRelease(o, x, f, ws, steps);
      EndsFrom(before, deleting, State(), o, f);
    }

    /** Reconcile of an owner that is not under deletion. */
    method ReconcileLive(o: Owner, x: Object, f: Foreign) returns (ghost ws: seq<World>, ghost steps: seq<Step>)
      requires WorkerOf(State(), o) == Idle && o in objects && objects[o] == x && !x.deleting
      modifies this
      ensures IsRun(ws, steps) && ws[0] == old(State()) && ws[|steps|] == State() && WorkerOf(State(), o) == Idle
      ensures connections == old(connections)
      ensures Lives(old(State()), State(), o, f)
    {
      hide Apply, Enabled, OnlyOwner, Held, Honoured, Marked;
      ghost var before := State();
      ws, steps := [before], [];
      BeginIs(before, o);
      HeldIff(o, x);
      var held := HasFinalizer(o, x);
      workers := workers[o := Idle];
      if !held {
        objects := objects[o := x.(finalizers := x.finalizers + {FINALIZER})];
        ws, steps := Extend(ws, steps, Begin(o), State());
        return;
      }
      if x.duty.suspend {
        ws, steps := Extend(ws, steps, Begin(o), State());
        return;
      }
      workers := workers[o := Resolving(x)];
      assert State() == Begun(before, o);
      ws, steps := Extend(ws, steps, Begin(o), State());
      ws, steps := Sync(o, x, f, ws, steps);
    }

    /**
     Reconcile of a cluster or a Helm release, as far as finalizers and remote things go: a run of the machine that
     touches no other owner and no connection.
     */
    method Reconcile(o: Owner, f: Foreign) returns (ghost ws: seq<World>, ghost steps: seq<Step>)
      requires WorkerOf(State(), o) == Idle
      modifies this
      ensures IsRun(ws, steps) && ws[0] == old(State()) && ws[|steps|] == State() && WorkerOf(State(), o) == Idle
      ensures connections == old(connections)
      ensures o !in old(objects) ==> objects == old(objects) && remote == old(remote)
      ensures o in old(objects) && old(objects)[o].deleting ==> Ends(old(State()), State(), o, f)
      ensures o in old(objects) && !old(objects)[o].deleting ==> Lives(old(State()), State(), o, f)
    {
      hide Apply, Enabled, OnlyOwner, Ends, Lives;
      if o !in objects {
        BeginIs(State(), o);
        ws, steps := [State()], [];
        workers := workers[o := Idle];
        ws, steps := Extend(ws, steps, Begin(o), State());
        return;
      }
      var x := objects[o];
      if x.deleting {
        ws, steps := ReconcileDelete(o, x, f);
      } else {
        ws, steps := ReconcileLive(o, x, f);
      }
    }

    /** The connection or kubeconfig is read again, then the remote thing is put in place. */
    method Sync(o: Owner, x: Object, f: Foreign, ghost ws0: seq<World>, ghost steps0: seq<Step>)
      returns (ghost ws: seq<World>, ghost steps: seq<Step>)
      requires WorkerOf(State(), o) == Resolving(x) && IsRun(ws0, steps0) && ws0[|steps0|] == State()
      modifies this
      ensures IsRun(ws, steps) && ws[0] == ws0[0] && ws[|steps|] == State() && WorkerOf(State(), o) == Idle
      ensures objects == old(objects) && connections == old(connections)
      ensures
        var done := f.resolved && (o.ClusterObject? ==> x.duty.dependency in connections) && !f.sync.Refused?;
        remote == if done then old(remote) + {Remote(x.duty.dependency, x.duty.remote, o)} else old(remote)
    {
      hide Begun, Deleted, Released, Scanned, LetGone, ScanBegun;
      ghost var before := State();
      if !f.resolved || (o.ClusterObject? && x.duty.dependency !in connections) {
        workers := workers[o := Idle];
        ws, steps := Extend(ws0, steps0, Resolve(o, f.resolved), State());
        return;
      }
      workers := workers[o := Syncing(x)];
      assert State() == Apply(before, Resolve(o, true));
      ws, steps := Extend(ws0, steps0, Resolve(o, true), State());
      before := State();
      if !f.sync.Refused? {
        remote := remote + {Remote(x.duty.dependency, x.duty.remote, o)};
      }
      workers := workers[o := Idle];
      assert State() == Apply(before, SyncRemote(o, f.sync));
      ws, steps := Extend(ws, steps, SyncRemote(o, f.sync), State());
    }

    /** referencingClusterNames, as a set. */
    method ReferencingClusters(c: string) returns (references: set<string>)
      ensures forall n :: n in references <==>
        ClusterObject(n) in objects && objects[ClusterObject(n)].duty.dependency == c
    {
      references := {};
      var todo := objects.Keys;
      while todo != {}
        invariant todo <= objects.Keys
        invariant forall n :: n in references <==>
          && ClusterObject(n) in objects && ClusterObject(n) !in todo
          && objects[ClusterObject(n)].duty.dependency == c
        decreases |todo|
      {
        var o :| o in todo;
        todo := todo - {o};
        if o.ClusterObject? && objects[o].duty.dependency == c {
          references := references + {o.name};
        }
      }
    }

    /**
     Reconcile of a connection, as far as its finalizers go: a run of the machine that touches no
     object, and that lets a connection under deletion go only if no cluster references it.
     */
    method ReconcileConnection(c: string, release: bool) returns (ghost ws: seq<World>, ghost steps: seq<Step>)
      requires ScanOf(State(), c) == NoScan
      modifies this
      ensures IsRun(ws, steps) && ws[0] == old(State()) && ws[|steps|] == State() && ScanOf(State(), c) == NoScan
      ensures objects == old(objects) && remote == old(remote)
      ensures c !in old(connections) ==> connections == old(connections)
      ensures c in old(connections) ==>
        var x := old(connections)[c];
        if x.deleting then
          Drops(old(connections), connections, c, ConnectionMarked(x) && Unused(old(State()), c) && release)
        else if ConnectionMarked(x) then connections == old(connections)
        else connections == old(connections)[c := x.(finalizers := x.finalizers + {FINALIZER})]
    {
      hide Apply, Enabled, Scanned, Referenced, Unused;
      ws, steps := [State()], [];
      BeginScanIs(State(), c);
      if c !in connections {
        ws, steps := Extend(ws, steps, BeginScan(c), State());
        return;
      }
      var x := connections[c];
      var held := FINALIZER in x.finalizers || LEGACY_FINALIZER in x.finalizers;
      if !x.deleting {
        if !held {
          connections := connections[c := x.(finalizers := x.finalizers + {FINALIZER})];
        }
        ws, steps := Extend(ws, steps, BeginScan(c), State());
        return;
      }
      if !held {
        ws, steps := Extend(ws, steps, BeginScan(c), State());
        return;
      }
      ghost var start := State();
      scans := scans[c := Scanning];
      assert State() == ScanBegun(start, c);
      ws, steps := Extend(ws, steps, BeginScan(c), State());
      ws, steps := ReconcileConnectionDelete(c, x, release, ws, steps);
      SameReferences(start, ScanBegun(start, c), c);
    }

    /** reconcileDelete of a connection that the operator holds. */
    method ReconcileConnectionDelete(c: string, x: Connection, release: bool, ghost ws0: seq<World>, ghost steps0: seq<Step>)
      returns (ghost ws: seq<World>, ghost steps: seq<Step>)
      requires c in connections && connections[c] == x && x.deleting
      requires ScanOf(State(), c) == Scanning && IsRun(ws0, steps0) && ws0[|steps0|] == State()
      modifies this
      ensures IsRun(ws, steps) && ws[0] == ws0[0] && ws[|steps|] == State() && ScanOf(State(), c) == NoScan
      ensures objects == old(objects) && remote == old(remote)
      ensures Drops(old(connections), connections, c, Unused(old(State()), c) && release)
    {
      hide Apply, Enabled, Scanned, Referenced, Unused;
      var references := ReferencingClusters(c);
      ghost var scanning := State();
      FinishScanIs(scanning, c);
      scans := scans[c := if references != {} then NoScan else Letting];
      UnusedIff(scanning, references, c);
      ws, steps := Extend(ws0, steps0, FinishScan(c), State());
      if references != {} {
        return;
      }
      LetGoIs(State(), c, release);
      scans := scans[c := NoScan];
      if release {
        var rest := x.finalizers - {FINALIZER, LEGACY_FINALIZER};
        connections := if rest == {} then connections - {c} else connections[c := x.(finalizers := rest)];
      }
      ws, steps := Extend(ws, steps, LetGo(c, release), State());
    }
  }

  /** The workers do not matter to what a pass does. */
  lemma EndsFrom(before: World, mid: World, after: World, o: Owner, f: Foreign)
    requires o in before.objects && mid == before.(workers := mid.workers) && Ends(mid, after, o, f)
    ensures Ends(before, after, o, f)
  {
    hide LetsGo, Clears, Marked;
  }

  lemma StaysIf(objects: map<Owner, Object>, o: Owner)
    requires o in objects
    ensures LetsGo(objects, objects, o, false)
  {
  }

  lemma BeginIs(w: World, o: Owner)
    requires WorkerOf(w, o) == Idle
    ensures Enabled(w, Begin(o)) && Apply(w, Begin(o)) == Begun(w, o)
  {
  }

  lemma DeleteIs(w: World, o: Owner, x: Object, readable: bool, e: Effect)
    requires WorkerOf(w, o) == Deleting(x)
    ensures Enabled(w, DeleteRemote(o, readable, e)) && Apply(w, DeleteRemote(o, readable, e)) == Deleted(w, o, x, readable, e)
  {
  }

  lemma ClearsIs(remote: set<Remote>, d: Duty)
    ensures Clears(remote, Without(remote, d), d.dependency, d.remote)
  {
  }

  lemma BeginScanIs(w: World, c: string)
    requires ScanOf(w, c) == NoScan
    ensures Enabled(w, BeginScan(c)) && Apply(w, BeginScan(c)) == ScanBegun(w, c)
  {
  }

  lemma FinishScanIs(w: World, c: string)
    requires ScanOf(w, c) == Scanning
    ensures Enabled(w, FinishScan(c)) && Apply(w, FinishScan(c)) == Scanned(w, c)
  {
  }

  lemma LetGoIs(w: World, c: string, ok: bool)
    requires ScanOf(w, c) == Letting
    ensures Enabled(w, LetGo(c, ok)) && Apply(w, LetGo(c, ok)) == LetGone(w, c, ok)
  {
  }

  lemma SameReferences(w: World, v: World, c: string)
    requires v.objects == w.objects
    ensures Unused(v, c) <==> Unused(w, c)
  {
  }

  /** The scan finds a name exactly when some cluster uses the connection. */
  lemma UnusedIff(w: World, references: set<string>, c: string)
    requires forall n :: n in references <==> ClusterObject(n) in w.objects && w.objects[ClusterObject(n)].duty.dependency == c
    ensures Unused(w, c) <==> references == {}
    ensures Scanned(w, c) == w.(scans := w.scans[c := if references != {} then NoScan else Letting])
  {
    if n :| n in references {
      assert References(ClusterObject(n), w.objects[ClusterObject(n)], c);
    }
    assert forall o :: o in w.objects && References(o, w.objects[o], c) ==> o.name in references;
  }
}
