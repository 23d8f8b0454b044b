/**
 What every run of the export machine keeps, whatever interleaves: who wrote a Secret, which
 credential a pass reuses, which part of a Secret a rewrite touches, and what a status says.
 */
module ExportSafety {
  import opened Kube
  import opened KubeconfigExport
  import opened ExportModel
  import opened ExportSteps

  // ---------------------------------------------------------------- identity

  /** At some point up to state n the stored spec of this export named this data key. */
  ghost predicate Targeted(ws: seq<World>, n: nat, k: Key, uid: string, dataKey: string)
    requires n < |ws|
  {
    exists j :: 0 <= j <= n && k in ws[j].exports && ws[j].exports[k].uid == uid
      && TargetSecretKey(ws[j].exports[k].spec) == dataKey
  }

  /** What a stored or remembered export says about itself is true of its own history. */
  ghost predicate Honest(ws: seq<World>, n: nat, k: Key, item: Export)
    requires n < |ws|
  {
    && item.key == k && k.namespace != "" && k.name != ""
    && item.uid != ""
    && Targeted(ws, n, k, item.uid, TargetSecretKey(item.spec))
    && (item.status.targetKey != "" ==> Targeted(ws, n, k, item.uid, item.status.targetKey))
  }

  ghost predicate AllHonest(ws: seq<World>, n: nat)
    requires n < |ws|
  {
    && (forall k :: k in ws[n].exports ==> Honest(ws, n, k, ws[n].exports[k]))
    && (forall k :: k in ws[n].workers && Snapshot(ws[n].workers[k]).Some? ==>
          Honest(ws, n, k, Snapshot(ws[n].workers[k]).value))
  }

  lemma HonestLater(ws: seq<World>, n: nat, k: Key, item: Export)
    requires n + 1 < |ws| && Honest(ws, n, k, item)
    ensures Honest(ws, n + 1, k, item)
  {
    assert forall d :: Targeted(ws, n, k, item.uid, d) ==> Targeted(ws, n + 1, k, item.uid, d);
  }

  lemma {:induction false} ExportHonest(ws: seq<World>, steps: seq<Step>, n: nat, k: Key)
    requires IsRun(ws, steps) && 0 < n < |ws| && AllHonest(ws, n - 1) && k in ws[n].exports
    ensures Honest(ws, n, k, ws[n].exports[k])
  {
    hide Apply, Enabled;
    ExportAfter(ws[n - 1], steps[n - 1], k);
    assert Targeted(ws, n, k, ws[n].exports[k].uid, TargetSecretKey(ws[n].exports[k].spec));
    if k in ws[n - 1].exports {
      HonestLater(ws, n - 1, k, ws[n - 1].exports[k]);
    }
  }

  lemma {:induction false} SnapshotHonest(ws: seq<World>, steps: seq<Step>, n: nat, k: Key)
    requires IsRun(ws, steps) && 0 < n < |ws| && AllHonest(ws, n - 1)
    requires k in ws[n].workers && Snapshot(ws[n].workers[k]).Some?
    ensures Honest(ws, n, k, Snapshot(ws[n].workers[k]).value)
  {
    hide Apply, Enabled;
    SnapshotAfter(ws[n - 1], steps[n - 1], k);
    if k in ws[n - 1].workers && Snapshot(ws[n].workers[k]) == Snapshot(ws[n - 1].workers[k]) {
      HonestLater(ws, n - 1, k, Snapshot(ws[n].workers[k]).value);
    } else {
      HonestLater(ws, n - 1, k, ws[n - 1].exports[k]);
    }
  }

  lemma {:induction false} AlwaysHonest(ws: seq<World>, steps: seq<Step>, n: nat)
    requires IsRun(ws, steps) && n < |ws| && Init(ws[0])
    ensures AllHonest(ws, n)
    decreases n
  {
    hide Apply, Enabled;
    if n > 0 {
      AlwaysHonest(ws, steps, n - 1);
      var w := ws[n];
      forall k | k in w.exports ensures Honest(ws, n, k, w.exports[k]) {
        ExportHonest(ws, steps, n, k);
      }
      forall k | k in w.workers && Snapshot(w.workers[k]).Some?
        ensures Honest(ws, n, k, Snapshot(w.workers[k]).value)
      {
        SnapshotHonest(ws, steps, n, k);
      }
    }
  }

  // ---------------------------------------------------------------- rewrite frame

  /** Two Secrets agree outside a set of data keys and outside the operator's own marks. */
  ghost predicate SameOutside(before: Secret, after: Secret, touched: iset<string>) {
    && before.kind == after.kind
    && (forall d :: d !in touched ==>
          (d in before.data <==> d in after.data) && (d in before.data ==> before.data[d] == after.data[d]))
    && (forall l :: l !in MANAGED_LABELS ==>
          (l in before.labels <==> l in after.labels) && (l in before.labels ==> before.labels[l] == after.labels[l]))
    && (forall a :: a !in MANAGED_ANNOTATIONS ==>
          (a in before.annotations <==> a in after.annotations)
          && (a in before.annotations ==> before.annotations[a] == after.annotations[a]))
  }

  /** A rewrite by one pass touches the pass's own key and the recorded key at most. */
  lemma RewriteTouches(base: Secret, item: Export, clusterName: string, kubeconfig: Bytes, now: Nanos)
    ensures
      var after := Rewrite(base, item, clusterName, kubeconfig, now);
      && SameOutside(base, after, iset{TargetSecretKey(item.spec), item.status.targetKey})
      && (item.status.targetKey == "" ==> SameOutside(base, after, iset{TargetSecretKey(item.spec)}))
      && Datum(after, TargetSecretKey(item.spec)) == kubeconfig
  {
  }

  /** The operator's own marks are those of this export and this rotation. */
  predicate MarkedBy(s: Secret, item: Export, clusterName: string, kubeconfig: Bytes, now: Nanos) {
    && MANAGED_LABELS <= s.labels.Keys && MANAGED_ANNOTATIONS <= s.annotations.Keys
    && s.labels[MANAGED_BY_LABEL] == "omni-cluster-operator"
    && s.labels[OWNER_UID_LABEL] == item.uid && s.labels[CLUSTER_LABEL] == clusterName
    && s.annotations[OWNER_ANNOTATION] == Text(item.key.name)
    && s.annotations[OWNER_NAMESPACE_ANNOTATION] == Text(item.key.namespace)
    && s.annotations[HASH_ANNOTATION] == Hex(Sha256(RawBytes(kubeconfig)))
    && s.annotations[SPEC_HASH_ANNOTATION] == Hex(Sha256(KubeconfigInputs(clusterName, TargetSecretKey(item.spec),
         item.spec.contextNamespace, item.spec.user, item.spec.groups, item.spec.ttl)))
    && s.annotations[EXPIRATION_ANNOTATION] == Stamp(FloorSecond(now + item.spec.ttl))
    && s.annotations[LAST_ROTATION_ANNOTATION] == Stamp(FloorSecond(now))
  }

  lemma MarksOf(base: Secret, item: Export, clusterName: string, kubeconfig: Bytes, now: Nanos)
    ensures MarkedBy(Rewrite(base, item, clusterName, kubeconfig, now), item, clusterName, kubeconfig, now)
    ensures IsOwnedSecret(item, Rewrite(base, item, clusterName, kubeconfig, now))
  {
    var after := Rewrite(base, item, clusterName, kubeconfig, now);
    assert after.annotations[OWNER_ANNOTATION] == Text(item.key.name);
  }

  /**
   What a rewrite leaves: the kubeconfig under the spec's key, the operator's marks, an owned Secret; and a key
   recorded for the same Secret that is not the spec's any more is gone, while one recorded for another is kept.
   */
  lemma RewriteContents(base: Secret, item: Export, clusterName: string, kubeconfig: Bytes, now: Nanos)
    ensures
      var after, key := Rewrite(base, item, clusterName, kubeconfig, now),
                        if item.spec.targetKey != "" then item.spec.targetKey else "kubeconfig";
      && key in after.data && after.data[key] == kubeconfig
      && MarkedBy(after, item, clusterName, kubeconfig, now) && IsOwnedSecret(item, after)
      && (item.status.targetKey != "" && item.status.targetKey != key ==>
            (item.status.targetKey in after.data <==>
               item.status.targetKey in base.data && item.status.targetName != item.spec.targetName))
  {
    MarksOf(base, item, clusterName, kubeconfig, now);
    hide MarkedBy, SecretLabels, SecretAnnotations, SpecHash;
  }

  /**
   Over a whole run of spec edits and rotations, a rewrite touches only data keys this export has
   targeted at some point, keeps every foreign label and annotation, and stores the new kubeconfig.
   */
  lemma RewriteFrame(ws: seq<World>, steps: seq<Step>, n: nat, x: Key)
    requires IsRun(ws, steps) && n < |steps| && Init(ws[0])
    requires Rewrites(ws[n], steps[n], x)
    ensures x in ws[n + 1].secrets
    ensures
      var item := Author(ws[n], steps[n], x).item;
      && SameOutside(Before(ws[n], x), ws[n + 1].secrets[x],
                     iset d | Targeted(ws, n, item.key, item.uid, d))
      && MarkedBy(ws[n + 1].secrets[x], item, Author(ws[n], steps[n], x).clusterName,
                  ws[n].workers[steps[n].k].kubeconfig, Author(ws[n], steps[n], x).now)
      && Datum(ws[n + 1].secrets[x], TargetSecretKey(item.spec)) == ws[n].workers[steps[n].k].kubeconfig
  {
    hide Apply, Enabled, Rewrite, Init;
    AlwaysHonest(ws, steps, n);
    RewriteLands(ws[n], steps[n], x);
    var p := ws[n].workers[steps[n].k];
    assert Snapshot(p) == Some(p.pass.item);
    SecretAfter(ws[n], steps[n], x);
    RewriteTouches(Before(ws[n], x), p.pass.item, p.pass.clusterName, p.kubeconfig, p.pass.now);
    RewriteContents(Before(ws[n], x), p.pass.item, p.pass.clusterName, p.kubeconfig, p.pass.now);
    hide MarkedBy;
  }

  lemma RewriteLands(w: World, s: Step, x: Key)
    requires Enabled(w, s) && Rewrites(w, s, x)
    ensures x in Apply(w, s).secrets && Apply(w, s).secrets == w.secrets[x := Apply(w, s).secrets[x]]
  {
  }

  // ---------------------------------------------------------------- ownership

  /** The latest rewrite of x before state n was made by the export with this uid. */
  ghost predicate LastRewriter(ws: seq<World>, steps: seq<Step>, n: nat, x: Key, uid: string)
    requires |steps| < |ws| && n <= |steps|
  {
    exists j :: 0 <= j < n && Rewrites(ws[j], steps[j], x) && Author(ws[j], steps[j], x).item.uid == uid
      && forall i :: j < i < n ==> !Rewrites(ws[i], steps[i], x)
  }

  lemma LastRewriterLater(ws: seq<World>, steps: seq<Step>, n: nat, x: Key, uid: string)
    requires |steps| < |ws| && n < |steps| && LastRewriter(ws, steps, n, x, uid)
    requires !Rewrites(ws[n], steps[n], x)
    ensures LastRewriter(ws, steps, n + 1, x, uid)
  {
    var j :| 0 <= j < n && Rewrites(ws[j], steps[j], x) && Author(ws[j], steps[j], x).item.uid == uid
      && forall i :: j < i < n ==> !Rewrites(ws[i], steps[i], x);
    assert forall i :: j < i < n + 1 ==> !Rewrites(ws[i], steps[i], x);
  }

  /** The owner label always names the export that rewrote the Secret last. */
  lemma {:induction false} OwnerLabelIsLastRewriter(ws: seq<World>, steps: seq<Step>, n: nat, x: Key)
    requires IsRun(ws, steps) && n < |ws| && Init(ws[0])
    requires x in ws[n].secrets && OWNER_UID_LABEL in ws[n].secrets[x].labels
    ensures LastRewriter(ws, steps, n, x, ws[n].secrets[x].labels[OWNER_UID_LABEL])
    decreases n
  {
    hide Apply, Enabled;
    if n > 0 {
      var m := n - 1;
      var uid := ws[n].secrets[x].labels[OWNER_UID_LABEL];
      SecretAfter(ws[m], steps[m], x);
      if Rewrites(ws[m], steps[m], x) {
        assert Author(ws[m], steps[m], x).item.uid == uid;
      } else {
        OwnerLabelIsLastRewriter(ws, steps, m, x);
        LastRewriterLater(ws, steps, m, x, uid);
      }
    }
  }

  /** A pass that removes or releases works on an export under deletion that the operator holds. */
  lemma RemoverAfter(w: World, s: Step, k: Key)
    requires Enabled(w, s)
    ensures
      var p, q := WorkerOf(w, k), WorkerOf(Apply(w, s), k);
      q.Removing? || q.Releasing? ==>
        ((p.Removing? || p.Releasing?) && q.item == p.item) || (q.item.deleting && q.item.finalizer)
  {
    hide Reusable, Rewrite, RotationReport, CommittedStatus, SpecAccepted, CleanupDeletes, FinalDeletes;
    if Actor(s) != Some(k) {
      WorkerAfter(w, s, k);
      hide Apply, Enabled;
    }
  }

  lemma {:induction false} RemoverIsDeleting(ws: seq<World>, steps: seq<Step>, n: nat, k: Key)
    requires IsRun(ws, steps) && n < |ws| && Init(ws[0])
    ensures
      var p := WorkerOf(ws[n], k);
      p.Removing? || p.Releasing? ==> p.item.deleting && p.item.finalizer
    decreases n
  {
    hide Apply, Enabled;
    if n > 0 {
      RemoverIsDeleting(ws, steps, n - 1, k);
      RemoverAfter(ws[n - 1], steps[n - 1], k);
    }
  }

  lemma ExportGoneBy(w: World, s: Step, k: Key)
    requires Enabled(w, s) && k in w.exports && k !in Apply(w, s).exports
    ensures s == MarkDeleted(k) || (s == Release(k, true) && WorkerOf(w, k).Releasing? && w.exports[k] == WorkerOf(w, k).item)
    ensures s == MarkDeleted(k) ==> !w.exports[k].finalizer
  {
    hide Begun, Resolved, Cleaned, LookedUp, Generated, Written, Committed, Removed;
  }

  /** An export goes only when its user deletes it: at once if the operator does not hold it, else when a pass lets it go. */
  lemma ExportGoesOnlyIfDeleted(ws: seq<World>, steps: seq<Step>, n: nat, k: Key)
    requires IsRun(ws, steps) && n < |steps| && Init(ws[0]) && k in ws[n].exports && k !in ws[n + 1].exports
    ensures steps[n] == MarkDeleted(k) || (steps[n] == Release(k, true) && ws[n].exports[k].deleting)
    ensures steps[n] == MarkDeleted(k) ==> !ws[n].exports[k].finalizer
  {
    hide Apply, Enabled;
    ExportGoneBy(ws[n], steps[n], k);
    RemoverIsDeleting(ws, steps, n, k);
  }

  /** Where the status says the Secret is, and where the spec puts it; an empty namespace is the export's own. */
  function RecordedAt(item: Export): Key {
    Key(if item.status.targetNamespace == "" then item.key.namespace else item.status.targetNamespace, item.status.targetName)
  }

  function SpecifiedAt(item: Export): Key {
    Key(if item.spec.targetNamespace == "" then item.key.namespace else item.spec.targetNamespace, item.spec.targetName)
  }

  /**
   Deletion safety: however exports share, adopt and retarget Secrets, a Secret that an export's
   pass removes was last rewritten by that same export.  Only the Delete policy removes at all: the recorded
   Secret when the export has moved to another, or the one it looks up when it is itself being deleted.
   */
  lemma DeletionSafety(ws: seq<World>, steps: seq<Step>, n: nat, x: Key)
    requires IsRun(ws, steps) && n < |steps| && Init(ws[0])
    requires x in ws[n].secrets && x !in ws[n + 1].secrets && !steps[n].EditSecret?
    ensures (steps[n].Cleanup? || steps[n].Remove?) && steps[n].k in ws[n].workers
    ensures
      var snapshot := Snapshot(ws[n].workers[steps[n].k]);
      snapshot.Some? && snapshot.value.key == steps[n].k
      && LastRewriter(ws, steps, n, x, snapshot.value.uid)
      && snapshot.value.spec.deletionPolicy == POLICY_DELETE
      && (steps[n].Cleanup? ==> x == RecordedAt(snapshot.value) != SpecifiedAt(snapshot.value))
      && (steps[n].Remove? && snapshot.value.status.targetName != "" && snapshot.value.status.targetNamespace != "" ==>
            x == RecordedAt(snapshot.value))
      && (steps[n].Remove? && (snapshot.value.status.targetName == "" || snapshot.value.status.targetNamespace == "") ==>
            x == SpecifiedAt(snapshot.value))
      && (steps[n].Remove? ==> snapshot.value.deleting)
  {
    hide Apply, Enabled;
    AlwaysHonest(ws, steps, n);
    SecretGone(ws[n], steps[n], x);
    RemoverIsDeleting(ws, steps, n, steps[n].k);
    OwnerLabelIsLastRewriter(ws, steps, n, x);
  }

  /**
   And it does remove: a cleanup that succeeds for a Delete export that has moved leaves no Secret of its own where the
   status says it was, and touches no other Secret; under any other policy, or without a move, it touches none.
   */
  lemma CleanupClears(w: World, k: Key, e: Effect)
    requires Enabled(w, Cleanup(k, e))
    ensures
      var item, v := w.workers[k].pass.item, Apply(w, Cleanup(k, e));
      var x := RecordedAt(item);
      var moved := item.status.targetName != "" && x != SpecifiedAt(item);
      && v.secrets - {x} == w.secrets - {x} && v.exports == w.exports
      && (item.spec.deletionPolicy != "Delete" || !moved ==> v.secrets == w.secrets)
      && (e.Done? && item.spec.deletionPolicy == "Delete" && moved ==> x in v.secrets ==> !IsOwnedSecret(item, v.secrets[x]))
      && (x in w.secrets && x !in v.secrets ==> IsOwnedSecret(item, w.secrets[x]))
  {
    hide IsOwnedSecret;
  }

  // ---------------------------------------------------------------- cache soundness

  /** The step obtained exactly the credential that a Secret's three cache annotations describe. */
  predicate Describes(s: Secret, w: World, step: Step)
    requires Issues(w, step)
  {
    var pass := w.workers[step.k].pass;
    && Annotation(s, SPEC_HASH_ANNOTATION) == Hex(SpecHash(pass.item, pass.clusterName))
    && Annotation(s, HASH_ANNOTATION) == Hex(Hash(step.issued.value))
    && Annotation(s, EXPIRATION_ANNOTATION) == Stamp(FloorSecond(pass.now + pass.item.spec.ttl))
    && pass.now <= w.now
  }

  predicate CacheMarked(s: Secret) {
    && SPEC_HASH_ANNOTATION in s.annotations
    && HASH_ANNOTATION in s.annotations
    && EXPIRATION_ANNOTATION in s.annotations
  }

  ghost predicate Vouched(ws: seq<World>, steps: seq<Step>, n: nat, s: Secret)
    requires |steps| < |ws| && n <= |steps|
  {
    exists j :: 0 <= j < n && Issues(ws[j], steps[j]) && Describes(s, ws[j], steps[j])
  }

  /** A kubeconfig about to be written was issued earlier, in this very pass. */
  ghost predicate IssuedInPass(ws: seq<World>, steps: seq<Step>, n: nat, k: Key, pass: Pass, kubeconfig: Bytes)
    requires |steps| < |ws| && n <= |steps|
  {
    exists j :: 0 <= j < n && Issues(ws[j], steps[j]) && steps[j] == Generate(k, Some(kubeconfig))
      && ws[j].workers[k].pass == pass && pass.now <= ws[j].now
  }

  ghost predicate CacheInv(ws: seq<World>, steps: seq<Step>, n: nat)
    requires |steps| < |ws| && n <= |steps|
  {
    && (forall x :: x in ws[n].secrets && CacheMarked(ws[n].secrets[x]) ==> Vouched(ws, steps, n, ws[n].secrets[x]))
    && (forall k :: k in ws[n].workers && PassOf(ws[n].workers[k]).Some? ==>
          PassOf(ws[n].workers[k]).value.now <= ws[n].now)
    && (forall k :: k in ws[n].workers && ws[n].workers[k].Writing? ==>
          IssuedInPass(ws, steps, n, k, ws[n].workers[k].pass, ws[n].workers[k].kubeconfig))
  }

  predicate SameCacheMarks(s: Secret, t: Secret) {
    && Annotation(s, SPEC_HASH_ANNOTATION) == Annotation(t, SPEC_HASH_ANNOTATION)
    && Annotation(s, HASH_ANNOTATION) == Annotation(t, HASH_ANNOTATION)
    && Annotation(s, EXPIRATION_ANNOTATION) == Annotation(t, EXPIRATION_ANNOTATION)
  }

  lemma VouchedLater(ws: seq<World>, steps: seq<Step>, n: nat, s: Secret, t: Secret)
    requires |steps| < |ws| && n < |steps| && Vouched(ws, steps, n, s) && SameCacheMarks(s, t)
    ensures Vouched(ws, steps, n + 1, t)
  {
    var j :| 0 <= j < n && Issues(ws[j], steps[j]) && Describes(s, ws[j], steps[j]);
    assert Describes(t, ws[j], steps[j]);
  }

  lemma RewriteMarks(base: Secret, pass: Pass, kubeconfig: Bytes)
    ensures
      var s := Rewrite(base, pass.item, pass.clusterName, kubeconfig, pass.now);
      && Annotation(s, SPEC_HASH_ANNOTATION) == Hex(SpecHash(pass.item, pass.clusterName))
      && Annotation(s, HASH_ANNOTATION) == Hex(Hash(kubeconfig))
      && Annotation(s, EXPIRATION_ANNOTATION) == Stamp(FloorSecond(pass.now + pass.item.spec.ttl))
  {
  }

  lemma SecretVouched(ws: seq<World>, steps: seq<Step>, n: nat, x: Key)
    requires IsRun(ws, steps) && 0 < n < |ws| && CacheInv(ws, steps, n - 1)
    requires x in ws[n].secrets && CacheMarked(ws[n].secrets[x])
    ensures Vouched(ws, steps, n, ws[n].secrets[x])
  {
    hide Apply, Enabled, Rewrite;
    var m := n - 1;
    SecretAfter(ws[m], steps[m], x);
    if Rewrites(ws[m], steps[m], x) {
      var k := steps[m].k;
      var p := ws[m].workers[k];
      RewriteMarks(Before(ws[m], x), p.pass, p.kubeconfig);
      var j :| 0 <= j < m && Issues(ws[j], steps[j]) && steps[j] == Generate(k, Some(p.kubeconfig))
        && ws[j].workers[k].pass == p.pass && p.pass.now <= ws[j].now;
      assert Describes(ws[n].secrets[x], ws[j], steps[j]);
    } else {
      VouchedLater(ws, steps, m, ws[m].secrets[x], ws[n].secrets[x]);
    }
  }

  lemma WriterIssued(ws: seq<World>, steps: seq<Step>, n: nat, k: Key)
    requires IsRun(ws, steps) && 0 < n < |ws| && CacheInv(ws, steps, n - 1)
    requires k in ws[n].workers && ws[n].workers[k].Writing?
    ensures IssuedInPass(ws, steps, n, k, ws[n].workers[k].pass, ws[n].workers[k].kubeconfig)
  {
    hide Apply, Enabled;
    var m, p := n - 1, ws[n].workers[k];
    WritingAfter(ws[m], steps[m], k);
    if k in ws[m].workers && p == ws[m].workers[k] {
      var j :| 0 <= j < m && Issues(ws[j], steps[j]) && steps[j] == Generate(k, Some(p.kubeconfig))
        && ws[j].workers[k].pass == p.pass && p.pass.now <= ws[j].now;
    } else {
      assert PassOf(ws[m].workers[k]) == Some(p.pass);
      assert Issues(ws[m], steps[m]) && ws[m].workers[k].pass == p.pass;
    }
  }

  lemma {:induction false} CacheAlways(ws: seq<World>, steps: seq<Step>, n: nat)
    requires IsRun(ws, steps) && n < |ws| && Init(ws[0])
    ensures CacheInv(ws, steps, n)
    decreases n
  {
    hide Apply, Enabled;
    var w := ws[n];
    if n > 0 {
      CacheAlways(ws, steps, n - 1);
      forall x | x in w.secrets && CacheMarked(w.secrets[x]) ensures Vouched(ws, steps, n, w.secrets[x]) {
        SecretVouched(ws, steps, n, x);
      }
      forall k | k in w.workers && PassOf(w.workers[k]).Some? ensures PassOf(w.workers[k]).value.now <= w.now {
        PassAfter(ws[n - 1], steps[n - 1], k);
      }
      forall k | k in w.workers && w.workers[k].Writing?
        ensures IssuedInPass(ws, steps, n, k, w.workers[k].pass, w.workers[k].kubeconfig)
      {
        WriterIssued(ws, steps, n, k);
      }
    }
  }

  lemma {:induction false} ClockMonotone(ws: seq<World>, steps: seq<Step>, i: nat, n: nat)
    requires IsRun(ws, steps) && i <= n < |ws|
    ensures ws[i].now <= ws[n].now
    decreases n
  {
    hide Apply, Enabled;
    if i < n {
      ClockMonotone(ws, steps, i, n - 1);
      ClockAfter(ws[n - 1], steps[n - 1]);
    }
  }

  /**
   Cache soundness: every kubeconfig a pass reuses is, byte for byte, one that Omni issued earlier
   for exactly the cluster name, key, context namespace, user, groups and ttl this pass asks for,
   and more than the renewal margin of the lifetime it was requested with is left.
   */
  lemma CacheSoundness(ws: seq<World>, steps: seq<Step>, n: nat, k: Key, verdict: Verdict) returns (j: nat)
    requires IsRun(ws, steps) && n < |steps| && Init(ws[0])
    requires steps[n] == Lookup(k, true, verdict) && k in ws[n].workers && ws[n].workers[k].Looking?
    requires Reusable(ws[n], ws[n].workers[k].pass, verdict).Some?
    ensures j < n && Issues(ws[j], steps[j])
    ensures
      var pass, issuing := ws[n].workers[k].pass, ws[j].workers[steps[j].k].pass;
      && LookupKey(pass.item) in ws[n].secrets
      && Datum(ws[n].secrets[LookupKey(pass.item)], TargetSecretKey(pass.item.spec)) == steps[j].issued.value
      && steps[j].issued.value != []
      && Request(issuing.item, issuing.clusterName) == Request(pass.item, pass.clusterName)
      && issuing.now <= ws[j].now <= ws[n].now
      && pass.now < issuing.now + pass.item.spec.ttl
      && (pass.item.spec.renewBefore.Some? ==> pass.now + pass.item.spec.renewBefore.value < issuing.now + pass.item.spec.ttl)
      && Reusable(ws[n], pass, verdict).value.hash == Hash(steps[j].issued.value)
  {
    hide Apply, Enabled;
    CacheAlways(ws, steps, n);
    var pass := ws[n].workers[k].pass;
    var secret := ws[n].secrets[LookupKey(pass.item)];
    assert CacheMarked(secret);
    j :| 0 <= j < n && Issues(ws[j], steps[j]) && Describes(secret, ws[j], steps[j]);
    ClockMonotone(ws, steps, j, n);
  }

  // ---------------------------------------------------------------- status coherence

  /** Ready and Exported are both unset or agree, and are true exactly when hash and expiry are recorded. */
  predicate CoherentStatus(s: Status) {
    var recorded := s.hash.Some? && s.expiration.Some?;
    if CONDITION_READY in s.conditions then
      && CONDITION_EXPORTED in s.conditions
      && s.conditions[CONDITION_READY] == s.conditions[CONDITION_EXPORTED]
      && s.conditions[CONDITION_READY].generation == s.observedGeneration
      && (s.conditions[CONDITION_READY].holds <==> recorded)
    else
      CONDITION_EXPORTED !in s.conditions && !recorded
  }

  predicate CoherentWorld(w: World) {
    && (forall k :: k in w.exports ==> CoherentStatus(w.exports[k].status))
    && (forall k :: k in w.workers && w.workers[k].Reporting? ==> CoherentReport(w.workers[k].report))
  }

  lemma CommitCoherent(latest: Export, r: Report)
    requires CoherentReport(r)
    ensures CoherentStatus(CommittedStatus(latest, r))
  {
  }

  /** In every reachable state every export's status is coherent. */
  lemma {:induction false} StatusCoherence(ws: seq<World>, steps: seq<Step>, n: nat)
    requires IsRun(ws, steps) && n < |ws| && Init(ws[0])
    ensures CoherentWorld(ws[n])
    decreases n
  {
    hide Apply, Enabled, CommittedStatus;
    if n > 0 {
      var v, s, w := ws[n - 1], steps[n - 1], ws[n];
      StatusCoherence(ws, steps, n - 1);
      forall k | k in w.exports ensures CoherentStatus(w.exports[k].status) {
        ExportAfter(v, s, k);
        if k in v.workers && v.workers[k].Reporting? && k in v.exports {
          CommitCoherent(v.exports[k], v.workers[k].report);
        }
      }
      forall k | k in w.workers && w.workers[k].Reporting? ensures CoherentReport(w.workers[k].report) {
        ReportAfter(v, s, k);
      }
    }
  }
}
