/**
 Which steps of the finalizer protocols may touch what, over every run: remote things come and go only by a pass of an
 owner that is entitled to it, finalizers of others survive, and nothing vanishes before it is let go.
 */
module LifecycleFrames {
  import opened Kube
  import opened Lifecycle

  /** The operator's finalizers on an owner, spelled out. */
  predicate Marked(o: Owner, x: Object) {
    FINALIZER in x.finalizers || (o.ClusterObject? && LEGACY_FINALIZER in x.finalizers)
  }

  lemma HeldIff(o: Owner, x: Object)
    ensures Held(o, x) <==> Marked(o, x)
  {
    assert FINALIZER in Honoured(o);
    assert o.ClusterObject? ==> LEGACY_FINALIZER in Honoured(o);
  }

  // ---------------------------------------------------------------- passes

  /** A pass of this owner began at step i, on a stored object, and no other has begun since. */
  ghost predicate Began(ws: seq<World>, steps: seq<Step>, o: Owner, i: nat, n: nat) {
    && i < n <= |steps| < |ws| && steps[i] == Begin(o) && o in ws[i].objects
    && forall j :: i < j < n ==> steps[j] != Begin(o)
  }

  /** What a busy worker works on: the object it read, which lets it do so. */
  predicate Entitled(o: Owner, x: Object, p: Worker) {
    && !p.Idle? && p.snapshot == x && Marked(o, x)
    && (p.Resolving? || p.Syncing? ==> !x.deleting && !x.duty.suspend)
    && (p.Deleting? ==> x.deleting && !x.duty.orphan)
    && (p.Releasing? ==> x.deleting)
  }

  /** How the worker of an owner changes in one step. */
  lemma WorkerAfter(w: World, s: Step, o: Owner)
    requires Enabled(w, s)
    ensures
      var p, q := WorkerOf(w, o), WorkerOf(Apply(w, s), o);
      || q.Idle?
      || (q == p && s != Begin(o))
      || (s == Begin(o) && o in w.objects && Entitled(o, w.objects[o], q)
          && !q.Syncing? && (q.Releasing? ==> w.objects[o].duty.orphan))
      || (s == Resolve(o, true) && p.Resolving? && q == Syncing(p.snapshot)
          && (o.ClusterObject? ==> p.snapshot.duty.dependency in w.connections))
      || (s.DeleteRemote? && s.o == o && s.effect.Done? && p.Deleting? && q == Releasing(p.snapshot)
          && (if o.ClusterObject? then p.snapshot.duty.dependency in w.connections else s.readable))
  {
    hide Held, Honoured, Put, Scanned, LetGone, ScanBegun, Without;
    if o in w.objects {
      HeldIff(o, w.objects[o]);
    }
    if s.Begin? && s.o == o {
      assert Apply(w, s) == Begun(w, o);
    }
  }

  /** The pass found its kubeconfig, or its connection in place. */
  ghost predicate Resolved(ws: seq<World>, steps: seq<Step>, o: Owner, d: Duty, i: nat, n: nat) {
    n <= |steps| < |ws| &&
    exists m :: i < m < n && steps[m] == Resolve(o, true) && (o.ClusterObject? ==> d.dependency in ws[m].connections)
  }

  /** The pass reached what the owner put there, and its deletion was confirmed. */
  ghost predicate Uninstalled(ws: seq<World>, steps: seq<Step>, o: Owner, d: Duty, i: nat, n: nat) {
    n <= |steps| < |ws| &&
    exists m :: i < m < n && steps[m].DeleteRemote? && steps[m].o == o && steps[m].effect.Done?
      && (if o.ClusterObject? then d.dependency in ws[m].connections else steps[m].readable)
  }

  /**
   A busy worker is in a pass that began on an object entitling it to what it does: a sync on a held, live and not
   suspended one whose dependency has resolved; a remote deletion on a held one under deletion that is not Orphan; and a
   release on a held one under deletion that is Orphan or whose remote thing has been deleted in this very pass.
   */
  lemma {:induction false} PassIsEntitled(ws: seq<World>, steps: seq<Step>, o: Owner, n: nat) returns (i: nat)
    requires IsRun(ws, steps) && n < |ws| && Init(ws[0]) && !WorkerOf(ws[n], o).Idle?
    ensures Began(ws, steps, o, i, n) && Entitled(o, ws[i].objects[o], WorkerOf(ws[n], o))
    ensures WorkerOf(ws[n], o).Syncing? ==> Resolved(ws, steps, o, ws[i].objects[o].duty, i, n)
    ensures WorkerOf(ws[n], o).Releasing? ==>
              ws[i].objects[o].duty.orphan || Uninstalled(ws, steps, o, ws[i].objects[o].duty, i, n)
    decreases n
  {
    hide Apply, Enabled, Marked;
    assert n > 0;
    WorkerAfter(ws[n - 1], steps[n - 1], o);
    assert ws[n] == Apply(ws[n - 1], steps[n - 1]);
    if steps[n - 1] == Begin(o) {
      i := n - 1;
    } else {
      i := PassIsEntitled(ws, steps, o, n - 1);
    }
  }

  lemma LatestPass(ws: seq<World>, steps: seq<Step>, o: Owner, i: nat, j: nat, n: nat)
    requires Began(ws, steps, o, i, n) && Began(ws, steps, o, j, n)
    ensures i == j
  {
  }

  // ---------------------------------------------------------------- remote things

  /** Which worker a remote call needs. */
  lemma RemoteCaller(w: World, s: Step)
    requires Enabled(w, s)
    ensures s.SyncRemote? ==> WorkerOf(w, s.o).Syncing?
    ensures s.DeleteRemote? ==> WorkerOf(w, s.o).Deleting?
    ensures s.Release? ==> WorkerOf(w, s.o).Releasing?
  {
  }

  /** How one step changes what is remote, exactly. */
  lemma RemoteAfter(w: World, s: Step, r: Remote)
    requires Enabled(w, s)
    ensures r in w.remote ==>
      (r !in Apply(w, s).remote <==>
         && s.DeleteRemote? && !s.effect.Refused?
         && (if s.o.ClusterObject? then WorkerOf(w, s.o).snapshot.duty.dependency in w.connections else s.readable)
         && r.dependency == WorkerOf(w, s.o).snapshot.duty.dependency && r.name == WorkerOf(w, s.o).snapshot.duty.remote)
    ensures r !in w.remote ==>
      (r in Apply(w, s).remote <==>
         && s.SyncRemote? && !s.effect.Refused?
         && r == Remote(WorkerOf(w, s.o).snapshot.duty.dependency, WorkerOf(w, s.o).snapshot.duty.remote, s.o))
  {
    hide Begun, Released, Scanned, LetGone, ScanBegun;
  }

  /**
   Over any run, whatever users do: something remote goes only by a remote deletion in a pass that began on a held
   object under deletion, not Orphan, that names it, and whose connection (or kubeconfig) is there.
   */
  lemma RemoteGoesOnlyByOwner(ws: seq<World>, steps: seq<Step>, r: Remote, n: nat) returns (i: nat)
    requires IsRun(ws, steps) && n < |steps| && Init(ws[0]) && r in ws[n].remote && r !in ws[n + 1].remote
    ensures steps[n].DeleteRemote? && !steps[n].effect.Refused? && Began(ws, steps, steps[n].o, i, n)
    ensures
      var o := steps[n].o;
      var x := ws[i].objects[o];
      && Marked(o, x) && x.deleting && !x.duty.orphan
      && r.dependency == x.duty.dependency && r.name == x.duty.remote
      && (if o.ClusterObject? then r.dependency in ws[n].connections else steps[n].readable)
  {
    hide Apply, Enabled, Marked;
    RemoteAfter(ws[n], steps[n], r);
    RemoteCaller(ws[n], steps[n]);
    i := PassIsEntitled(ws, steps, steps[n].o, n);
  }

  /**
   And it comes only by a sync of its owner, in a pass that began on a held, live and not suspended object that names it,
   and that has resolved its connection (or kubeconfig).
   */
  lemma RemoteComesOnlyByOwner(ws: seq<World>, steps: seq<Step>, r: Remote, n: nat) returns (i: nat)
    requires IsRun(ws, steps) && n < |steps| && Init(ws[0]) && r !in ws[n].remote && r in ws[n + 1].remote
    ensures steps[n].SyncRemote? && steps[n].o == r.owner && !steps[n].effect.Refused? && Began(ws, steps, r.owner, i, n)
    ensures
      var x := ws[i].objects[r.owner];
      && Marked(r.owner, x) && !x.deleting && !x.duty.suspend
      && r.dependency == x.duty.dependency && r.name == x.duty.remote
      && Resolved(ws, steps, r.owner, x.duty, i, n)
  {
    hide Apply, Enabled, Marked;
    RemoteAfter(ws[n], steps[n], r);
    RemoteCaller(ws[n], steps[n]);
    i := PassIsEntitled(ws, steps, r.owner, n);
  }

  /**
   A pass that begins on an Orphan owner under deletion, on a suspended live one, or on one under deletion that the
   operator does not hold, makes no remote call at all, however long it takes and whatever users do meanwhile.
   */
  lemma LeftInPlace(ws: seq<World>, steps: seq<Step>, o: Owner, i: nat, n: nat)
    requires IsRun(ws, steps) && n < |steps| && Init(ws[0]) && Began(ws, steps, o, i, n)
    requires
      var x := ws[i].objects[o];
      if x.deleting then x.duty.orphan || !Marked(o, x) else x.duty.suspend || !Marked(o, x)
    ensures !(steps[n].DeleteRemote? && steps[n].o == o) && !(steps[n].SyncRemote? && steps[n].o == o)
  {
    hide Apply, Enabled, Marked;
    RemoteCaller(ws[n], steps[n]);
    if (steps[n].DeleteRemote? || steps[n].SyncRemote?) && steps[n].o == o {
      var j := PassIsEntitled(ws, steps, o, n);
      LatestPass(ws, steps, o, i, j, n);
    }
  }

  // ---------------------------------------------------------------- finalizers

  /** The finalizers the operator manages on an owner: a Helm release never had the legacy one. */
  function Managed(o: Owner): set<string> {
    if o.ClusterObject? then {FINALIZER, LEGACY_FINALIZER} else {FINALIZER}
  }

  /**
   How one step changes a stored owner: its duty and the finalizers of others only by its user, the operator's
   finalizers only by the start of a pass that finds none, or by a release, which leaves none.
   */
  lemma OwnerAfter(w: World, s: Step, o: Owner)
    requires Enabled(w, s) && o in w.objects && o in Apply(w, s).objects
    ensures
      var x, y := w.objects[o], Apply(w, s).objects[o];
      && (y.deleting <==> x.deleting || s == MarkObject(o))
      && (!(s.EditObject? && s.o == o) ==> y.duty == x.duty && y.finalizers - Managed(o) == x.finalizers - Managed(o))
      && (y.finalizers * Managed(o) ==
            if s == Begin(o) && !x.deleting && !Marked(o, x) then {FINALIZER}
            else if s == Release(o, true) then {}
            else x.finalizers * Managed(o))
  {
    hide Held, Deleted, Scanned, LetGone, ScanBegun;
    HeldIff(o, w.objects[o]);
  }

  /**
   An owner vanishes only when its user has deleted it and no finalizer of others is left on it: by the mark or an edit
   if the operator does not hold it, and otherwise by a release.
   */
  lemma OwnerGoes(w: World, s: Step, o: Owner)
    requires Enabled(w, s) && o in w.objects
    ensures o !in Apply(w, s).objects <==>
      (|| (s == MarkObject(o) && w.objects[o].finalizers == {})
       || (s.EditObject? && s.o == o && w.objects[o].deleting
           && w.objects[o].finalizers * OPERATOR_FINALIZERS == {} && s.foreign <= {FINALIZER, LEGACY_FINALIZER})
       || (s == Release(o, true) && w.objects[o].deleting && w.objects[o].finalizers <= Managed(o)))
  {
    hide Held, Deleted, Scanned, LetGone, ScanBegun;
    if s.EditObject? && s.o == o {
      assert Refinalized(w.objects[o].finalizers, s.foreign) == {} <==>
        w.objects[o].finalizers * OPERATOR_FINALIZERS == {} && s.foreign <= {FINALIZER, LEGACY_FINALIZER};
    }
    if s == Release(o, true) {
      assert w.objects[o].finalizers - Honoured(o) == {} <==> w.objects[o].finalizers <= Managed(o);
    }
  }

  /** Over any run, a release belongs to a pass that found the owner Orphan, or has deleted its remote thing. */
  lemma ReleaseIsEarned(ws: seq<World>, steps: seq<Step>, o: Owner, ok: bool, n: nat) returns (i: nat)
    requires IsRun(ws, steps) && n < |steps| && Init(ws[0]) && steps[n] == Release(o, ok)
    ensures Began(ws, steps, o, i, n)
    ensures
      var x := ws[i].objects[o];
      && Marked(o, x) && x.deleting
      && (x.duty.orphan || Uninstalled(ws, steps, o, x.duty, i, n))
      && (ok && o.ClusterObject? ==> o in ws[n].objects && ws[n].objects[o] == x)
  {
    hide Apply, Marked;
    RemoteCaller(ws[n], steps[n]);
    i := PassIsEntitled(ws, steps, o, n);
  }

  // ---------------------------------------------------------------- connections

  predicate ConnectionMarked(c: Connection) {
    FINALIZER in c.finalizers || LEGACY_FINALIZER in c.finalizers
  }

  /** How one step changes a stored connection. */
  lemma ConnectionChanges(w: World, s: Step, c: string)
    requires Enabled(w, s) && c in w.connections && c in Apply(w, s).connections
    ensures
      var x, y := w.connections[c], Apply(w, s).connections[c];
      && (y.deleting <==> x.deleting || s == MarkConnection(c))
      && (!(s.EditConnection? && s.c == c) ==>
            y.finalizers - {FINALIZER, LEGACY_FINALIZER} == x.finalizers - {FINALIZER, LEGACY_FINALIZER})
      && (y.finalizers * {FINALIZER, LEGACY_FINALIZER} ==
            if s == BeginScan(c) && !x.deleting && !ConnectionMarked(x) then {FINALIZER}
            else if s == LetGo(c, true) then {}
            else x.finalizers * {FINALIZER, LEGACY_FINALIZER})
  {
    hide Held, Begun, Deleted, Released, Referenced;
  }

  lemma ConnectionGoes(w: World, s: Step, c: string)
    requires Enabled(w, s) && c in w.connections
    ensures c !in Apply(w, s).connections <==>
      (|| (s == MarkConnection(c) && w.connections[c].finalizers == {})
       || (s.EditConnection? && s.c == c && w.connections[c].deleting
           && w.connections[c].finalizers * OPERATOR_FINALIZERS == {} && s.foreign <= {FINALIZER, LEGACY_FINALIZER})
       || (s == LetGo(c, true) && w.connections[c].deleting && w.connections[c].finalizers <= {FINALIZER, LEGACY_FINALIZER}))
  {
    hide Held, Begun, Deleted, Released, Referenced;
    if s.EditConnection? && s.c == c {
      assert Refinalized(w.connections[c].finalizers, s.foreign) == {} <==>
        w.connections[c].finalizers * OPERATOR_FINALIZERS == {} && s.foreign <= {FINALIZER, LEGACY_FINALIZER};
    }
    if s == LetGo(c, true) {
      assert w.connections[c].finalizers - OPERATOR_FINALIZERS == {} <==>
        w.connections[c].finalizers <= {FINALIZER, LEGACY_FINALIZER};
    }
  }

  /** No stored cluster names this connection. */
  ghost predicate Unused(w: World, c: string) {
    forall name :: ClusterObject(name) in w.objects ==> w.objects[ClusterObject(name)].duty.dependency != c
  }

  lemma ScanAfter(w: World, s: Step, c: string)
    requires Enabled(w, s)
    ensures
      var p, q := ScanOf(w, c), ScanOf(Apply(w, s), c);
      || q.NoScan?
      || (q == p && s != BeginScan(c) && s != FinishScan(c))
      || (s == BeginScan(c) && q.Scanning? && c in w.connections && w.connections[c].deleting && ConnectionMarked(w.connections[c]))
      || (s == FinishScan(c) && p.Scanning? && q.Letting? && Unused(w, c))
  {
    hide Held, Begun, Deleted, Released, PutConnection;
    if s == FinishScan(c) && !Unused(w, c) {
      var name :| ClusterObject(name) in w.objects && w.objects[ClusterObject(name)].duty.dependency == c;
      assert References(ClusterObject(name), w.objects[ClusterObject(name)], c);
    }
  }

  ghost predicate ScanBeganAt(ws: seq<World>, steps: seq<Step>, c: string, i: nat, n: nat) {
    && i < n <= |steps| < |ws| && steps[i] == BeginScan(c)
    && c in ws[i].connections && ws[i].connections[c].deleting && ConnectionMarked(ws[i].connections[c])
    && forall j :: i < j < n ==> steps[j] != BeginScan(c)
  }

  ghost predicate FoundUnused(ws: seq<World>, steps: seq<Step>, c: string, i: nat, n: nat) {
    n <= |steps| < |ws| && exists m :: i < m < n && steps[m] == FinishScan(c) && Unused(ws[m], c)
  }

  /** A connection is let go only in a pass that found it held, under deletion, and then used by no cluster. */
  lemma {:induction false} ScanIsEntitled(ws: seq<World>, steps: seq<Step>, c: string, n: nat) returns (i: nat)
    requires IsRun(ws, steps) && n < |ws| && Init(ws[0]) && !ScanOf(ws[n], c).NoScan?
    ensures ScanBeganAt(ws, steps, c, i, n)
    ensures ScanOf(ws[n], c).Letting? ==> FoundUnused(ws, steps, c, i, n)
    decreases n
  {
    hide Apply, Enabled, ConnectionMarked, Unused;
    assert n > 0;
    ScanAfter(ws[n - 1], steps[n - 1], c);
    assert ws[n] == Apply(ws[n - 1], steps[n - 1]);
    if steps[n - 1] == BeginScan(c) {
      i := n - 1;
    } else {
      i := ScanIsEntitled(ws, steps, c, n - 1);
    }
  }

  lemma LetGoIsEarned(ws: seq<World>, steps: seq<Step>, c: string, ok: bool, n: nat) returns (i: nat)
    requires IsRun(ws, steps) && n < |steps| && Init(ws[0]) && steps[n] == LetGo(c, ok)
    ensures ScanBeganAt(ws, steps, c, i, n) && FoundUnused(ws, steps, c, i, n)
  {
    hide Apply, ConnectionMarked, Unused;
    i := ScanIsEntitled(ws, steps, c, n);
  }
}
