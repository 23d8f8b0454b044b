/**
 Is `Exported=True` true?  targetSecret reads the recorded target of the export as a pass began with
 it, while the status commit names the spec target of the export as it is stored by then.  So the
 answer depends on what was recorded before the pass and on what happened during it.
 */
module ExportTruth {
  import opened Kube
  import opened KubeconfigExport
  import opened ExportModel
  import opened ExportSteps
  import opened ExportRuns

  /** The Secret the status names holds, under the key the status names, bytes with the recorded hash. */
  predicate Truthful(w: World, k: Key)
    requires k in w.exports
  {
    var status := w.exports[k].status;
    Holds(w.secrets, Key(status.targetNamespace, status.targetName), status.targetKey, status.hash)
  }

  predicate Holds(secrets: map<Key, Secret>, x: Key, dataKey: string, hash: Option<Digest>) {
    x in secrets && dataKey in secrets[x].data && hash == Some(Hash(secrets[x].data[dataKey]))
  }

  /**
   What can be checked before the pass: no other target is recorded, or the recorded Secret is
   absent, or cleanup is about to delete it.
   */
  predicate RecordedTargetSettled(item: Export, secrets: map<Key, Secret>) {
    || LookupKey(item) == SpecTarget(item)
    || LookupKey(item) !in secrets
    || CleanupDeletes(item, secrets)
  }

  // ---------------------------------------------------------------- passes in a run

  /**
   One pass in a run: it begins at step b and is still under way at state n.  Steps of users and of
   other exports may fall anywhere in between.
   */
  ghost predicate InPass(ws: seq<World>, steps: seq<Step>, k: Key, b: nat, n: nat) {
    && IsRun(ws, steps) && b < n < |ws| && steps[b] == Begin(k, true)
    && k in ws[b].exports && forall j :: b < j <= n ==> !WorkerOf(ws[j], k).Idle?
  }

  /** A pass that ends at step c with a status commit that says Exported=True. */
  ghost predicate Exports(ws: seq<World>, steps: seq<Step>, k: Key, b: nat, c: nat) {
    && InPass(ws, steps, k, b, c) && c < |steps| && steps[c] == Commit(k, true)
    && k in ws[c].workers && ws[c].workers[k].Reporting? && ws[c].workers[k].report.exported
    && k in ws[c].exports
  }

  /** A step of somebody else that leaves the Secret this item looks up, and the one it asks for, alone. */
  predicate LeavesSecrets(w: World, s: Step, k: Key, item: Export)
    requires Enabled(w, s)
  {
    Actor(s) == Some(k) || (SameSecret(w, Apply(w, s), LookupKey(item)) && SameSecret(w, Apply(w, s), SpecTarget(item)))
  }

  ghost predicate SecretsLeft(ws: seq<World>, steps: seq<Step>, k: Key, b: nat, n: nat)
    requires IsRun(ws, steps) && b <= n <= |steps| && k in ws[b].exports
  {
    forall j :: b <= j < n ==> Enabled(ws[j], steps[j]) && LeavesSecrets(ws[j], steps[j], k, ws[b].exports[k])
  }

  /**
   The kubeconfig a pass has obtained by state n: the one Omni issued to it, or else what the Secret
   it looked up held.
   */
  function Obtained(ws: seq<World>, steps: seq<Step>, k: Key, b: nat, n: nat): Bytes
    requires b <= n < |ws| && |steps| + 1 == |ws| && k in ws[b].exports
    decreases n
  {
    if n == b then []
    else if steps[n - 1].Generate? && steps[n - 1].k == k && steps[n - 1].issued.Some? then steps[n - 1].issued.value
    else if steps[n - 1].Lookup? && steps[n - 1].k == k then
      var item := ws[b].exports[k];
      if LookupKey(item) in ws[n - 1].secrets
      then Datum(ws[n - 1].secrets[LookupKey(item)], TargetSecretKey(item.spec)) else []
    else Obtained(ws, steps, k, b, n - 1)
  }

  // ---------------------------------------------------------------- with nothing assumed of the rest

  /** Whatever the pass in progress holds is of the item it began with and the kubeconfig it obtained. */
  predicate Carries(p: Worker, item: Export, kubeconfig: Bytes) {
    match p
    case Idle => false
    case Resolving(x) => x == item
    case Cleaning(pass) => pass.item == item
    case Looking(pass) => pass.item == item
    case Generating(pass, _) => pass.item == item
    case Writing(pass, _, kc) => pass.item == item && kc == kubeconfig
    case Reporting(r) => r.exported ==> r.hash == Some(Hash(kubeconfig))
    case Removing(_) => true
    case Releasing(_) => true
  }

  lemma BeginCarries(w: World, k: Key)
    requires Enabled(w, Begin(k, true)) && k in w.exports
    ensures WorkerOf(Apply(w, Begin(k, true)), k).Idle? || Carries(WorkerOf(Apply(w, Begin(k, true)), k), w.exports[k], [])
  {
    StepBegin(w, k, true);
    hide SpecAccepted, Apply, Enabled;
  }

  /** What a step of the pass itself carries over. */
  lemma OwnStepCarries(w: World, s: Step, k: Key, item: Export, before: Bytes, after: Bytes)
    requires Enabled(w, s) && Actor(s) == Some(k) && !s.Begin? && Carries(WorkerOf(w, k), item, before)
    requires after ==
      if s.Generate? && s.issued.Some? then s.issued.value
      else if s.Lookup? then
        if LookupKey(item) in w.secrets then Datum(w.secrets[LookupKey(item)], TargetSecretKey(item.spec)) else []
      else before
    ensures WorkerOf(Apply(w, s), k).Idle? || Carries(WorkerOf(Apply(w, s), k), item, after)
  {
    hide Rewrite, SpecHash, CommittedStatus, CleanupDeletes, FinalDeletes;
  }

  lemma {:induction false} PassCarries(ws: seq<World>, steps: seq<Step>, k: Key, b: nat, n: nat)
    requires InPass(ws, steps, k, b, n)
    ensures Carries(WorkerOf(ws[n], k), ws[b].exports[k], Obtained(ws, steps, k, b, n))
    decreases n
  {
    hide Apply, Enabled, Carries;
    var w, s := ws[n - 1], steps[n - 1];
    if n == b + 1 {
      BeginCarries(w, k);
    } else {
      PassCarries(ws, steps, k, b, n - 1);
      if Actor(s) == Some(k) {
        assert !WorkerOf(w, k).Idle?;
        NotBegin(w, s, k);
        OwnStepCarries(w, s, k, ws[b].exports[k], Obtained(ws, steps, k, b, n - 1), Obtained(ws, steps, k, b, n));
      } else {
        WorkerAfter(w, s, k);
      }
    }
  }

  lemma NotBegin(w: World, s: Step, k: Key)
    requires Enabled(w, s) && Actor(s) == Some(k) && !WorkerOf(w, k).Idle?
    ensures !s.Begin?
  {
  }

  /** What the commit leaves behind. */
  lemma CommitNames(w: World, k: Key)
    requires Enabled(w, Commit(k, true))
    ensures k in w.exports && k in w.workers && w.workers[k].Reporting?
    ensures
      var item, v := w.exports[k], Apply(w, Commit(k, true));
      && k in v.exports && v.secrets == w.secrets
      && v.exports[k].status.targetKey == TargetSecretKey(item.spec)
      && Key(v.exports[k].status.targetNamespace, v.exports[k].status.targetName) == SpecTarget(item)
      && v.exports[k].status.hash == w.workers[k].report.hash
  {
    hide AcceptedCondition;
  }

  /**
   In any run, whatever falls between the steps of the pass: Exported=True is true exactly when, at
   the instant of the commit, the target the stored spec names by then holds what the pass obtained.
   */
  lemma TruthAtCommit(ws: seq<World>, steps: seq<Step>, k: Key, b: nat, c: nat)
    requires Exports(ws, steps, k, b, c)
    ensures k in ws[c + 1].exports
    ensures
      var latest := ws[c].exports[k];
      Truthful(ws[c + 1], k) <==>
        Holds(ws[c].secrets, SpecTarget(latest), TargetSecretKey(latest.spec), Some(Hash(Obtained(ws, steps, k, b, c))))
  {
    hide Apply, Enabled, Obtained;
    PassCarries(ws, steps, k, b, c);
    CommitNames(ws[c], k);
  }

  // ---------------------------------------------------------------- with the two Secrets left alone

  predicate SameAt(s: map<Key, Secret>, t: map<Key, Secret>, x: Key) {
    (x in s <==> x in t) && (x in s ==> s[x] == t[x])
  }

  /** The two Secrets of the item are as in `secrets`. */
  predicate Both(secrets: map<Key, Secret>, w: World, item: Export) {
    SameAt(secrets, w.secrets, LookupKey(item)) && SameAt(secrets, w.secrets, SpecTarget(item))
  }

  /** Where the pass stands, in terms of the Secrets it began with. */
  predicate OnTrack(item: Export, start: map<Key, Secret>, w: World, k: Key) {
    var cleaned := CleanedSecrets(start, item);
    match WorkerOf(w, k)
    case Idle => false
    case Resolving(x) => x == item && Both(start, w, item)
    case Cleaning(pass) => pass.item == item && Both(start, w, item)
    case Looking(pass) => pass.item == item && Both(cleaned, w, item)
    case Generating(pass, base) => pass.item == item && base == BaseOf(item, start) && Both(cleaned, w, item)
    case Writing(pass, base, _) => pass.item == item && base == BaseOf(item, start) && Both(cleaned, w, item)
    case Reporting(r) =>
      r.exported ==>
        && Holds(w.secrets, Home(item, start), TargetSecretKey(item.spec), r.hash)
        && (Home(item, start) != SpecTarget(item) ==> SameAt(cleaned, w.secrets, SpecTarget(item)))
    case Removing(_) => true
    case Releasing(_) => true
  }

  lemma BeginOnTrack(w: World, k: Key)
    requires Enabled(w, Begin(k, true)) && k in w.exports
    ensures
      var v := Apply(w, Begin(k, true));
      WorkerOf(v, k).Idle? || OnTrack(w.exports[k], w.secrets, v, k)
  {
    StepBegin(w, k, true);
    hide SpecAccepted, CleanupDeletes, Apply, Enabled, LookupKey, SpecTarget;
  }

  lemma OtherOnTrack(w: World, s: Step, k: Key, item: Export, start: map<Key, Secret>)
    requires Enabled(w, s) && Actor(s) != Some(k) && LeavesSecrets(w, s, k, item) && OnTrack(item, start, w, k)
    ensures OnTrack(item, start, Apply(w, s), k)
  {
    hide Apply, Enabled, LookupKey, SpecTarget, CleanedSecrets, BaseOf;
    WorkerAfter(w, s, k);
  }

  lemma CleanupOnTrack(w: World, k: Key, e: Effect, item: Export, start: map<Key, Secret>)
    requires Enabled(w, Cleanup(k, e)) && OnTrack(item, start, w, k)
    ensures
      var v := Apply(w, Cleanup(k, e));
      WorkerOf(v, k).Idle? || OnTrack(item, start, v, k)
  {
    hide IsOwnedSecret;
    StepCleanup(w, k, e);
    hide Apply, Enabled;
  }

  lemma LookupOnTrack(w: World, k: Key, ok: bool, verdict: Verdict, item: Export, start: map<Key, Secret>)
    requires Enabled(w, Lookup(k, ok, verdict)) && OnTrack(item, start, w, k)
    ensures
      var v := Apply(w, Lookup(k, ok, verdict));
      WorkerOf(v, k).Idle? || OnTrack(item, start, v, k)
  {
    hide CleanupDeletes, LookupKey, SpecTarget;
    StepLookup(w, k, ok, verdict);
    hide Apply, Enabled;
  }

  lemma RewriteHolds(base: Secret, pass: Pass, kubeconfig: Bytes)
    ensures
      var s, key := Rewrite(base, pass.item, pass.clusterName, kubeconfig, pass.now), TargetSecretKey(pass.item.spec);
      key in s.data && s.data[key] == kubeconfig
  {
    hide IsOwnedSecret;
  }

  /** A write that is acknowledged lands at home, and reports what it wrote. */
  lemma WriteLandsHome(w: World, k: Key, item: Export, start: map<Key, Secret>)
    requires Enabled(w, WriteSecret(k, Done)) && OnTrack(item, start, w, k)
    ensures
      var v, home := Apply(w, WriteSecret(k, Done)), Home(item, start);
      && Both(CleanedSecrets(start, item), w, item) && WorkerOf(v, k).Reporting? && home in v.secrets
      && v.secrets == w.secrets[home := v.secrets[home]]
      && Holds(v.secrets, home, TargetSecretKey(item.spec), WorkerOf(v, k).report.hash)
  {
    StepWrite(w, k, Done);
    hide Apply, Enabled, CleanupDeletes, CleanedSecrets, LookupKey, SpecTarget, Rewrite, WriteAccepted, CoherentReport;
    var p := w.workers[k];
    RewriteHolds(if p.base.Some? then p.base.value.secret else NEW_SECRET, p.pass, p.kubeconfig);
    assert WriteKey(p.pass, p.base) == Home(item, start);
  }

  lemma WriteOnTrack(w: World, k: Key, e: Effect, item: Export, start: map<Key, Secret>)
    requires Enabled(w, WriteSecret(k, e)) && OnTrack(item, start, w, k)
    ensures
      var v := Apply(w, WriteSecret(k, e));
      WorkerOf(v, k).Idle? || OnTrack(item, start, v, k)
  {
    if e.Done? {
      WriteLandsHome(w, k, item, start);
      hide Apply, Enabled, Home, CleanedSecrets, LookupKey, SpecTarget, BaseOf, Holds;
    } else {
      StepWrite(w, k, e);
      hide Apply, Enabled, Rewrite;
    }
  }

  lemma OwnOnTrack(w: World, s: Step, k: Key, item: Export, start: map<Key, Secret>)
    requires Enabled(w, s) && Actor(s) == Some(k) && !s.Begin? && OnTrack(item, start, w, k)
    ensures WorkerOf(Apply(w, s), k).Idle? || OnTrack(item, start, Apply(w, s), k)
  {
    match s
    case Cleanup(_, e) => CleanupOnTrack(w, k, e, item, start);
    case Lookup(_, ok, verdict) => LookupOnTrack(w, k, ok, verdict, item, start);
    case WriteSecret(_, e) => WriteOnTrack(w, k, e, item, start);
    case _ => hide Home, CleanedSecrets, BaseOf, LookupKey, SpecTarget, CommittedStatus, FinalDeletes;
  }

  lemma {:induction false} PassOnTrack(ws: seq<World>, steps: seq<Step>, k: Key, b: nat, n: nat)
    requires InPass(ws, steps, k, b, n) && SecretsLeft(ws, steps, k, b, n)
    ensures OnTrack(ws[b].exports[k], ws[b].secrets, ws[n], k)
    decreases n
  {
    hide Apply, Enabled, OnTrack, LeavesSecrets;
    var w, s := ws[n - 1], steps[n - 1];
    if n == b + 1 {
      BeginOnTrack(w, k);
    } else {
      PassOnTrack(ws, steps, k, b, n - 1);
      if Actor(s) == Some(k) {
        assert !WorkerOf(w, k).Idle?;
        NotBegin(w, s, k);
        OwnOnTrack(w, s, k, ws[b].exports[k], ws[b].secrets);
      } else {
        OtherOnTrack(w, s, k, ws[b].exports[k], ws[b].secrets);
      }
    }
  }

  /**
   The spec may be edited while the pass is under way; only the two Secrets of the item it began with
   are left alone.  Then Exported=True is true exactly when the target and key stored by the commit are
   those where the pass found or put its kubeconfig, or happen to hold the same bytes.
   */
  lemma EditedPassTruthful(ws: seq<World>, steps: seq<Step>, k: Key, b: nat, c: nat)
    requires Exports(ws, steps, k, b, c) && SecretsLeft(ws, steps, k, b, c)
    ensures k in ws[c + 1].exports
    ensures
      var item, latest := ws[b].exports[k], ws[c].exports[k];
      Truthful(ws[c + 1], k) <==>
        || (SpecTarget(latest) == Home(item, ws[b].secrets) && TargetSecretKey(latest.spec) == TargetSecretKey(item.spec))
        || Holds(ws[c].secrets, SpecTarget(latest), TargetSecretKey(latest.spec), Some(Hash(Obtained(ws, steps, k, b, c))))
  {
    hide Apply, Enabled, Obtained, Home, LeavesSecrets, Hash;
    TruthAtCommit(ws, steps, k, b, c);
    PassOnTrack(ws, steps, k, b, c);
    PassCarries(ws, steps, k, b, c);
  }

  // ---------------------------------------------------------------- with the spec left alone too

  /** A step of somebody else that leaves the export stored, with its spec. */
  predicate LeavesSpec(w: World, s: Step, k: Key)
    requires Enabled(w, s)
  {
    Actor(s) == Some(k) || (k in w.exports ==> k in Apply(w, s).exports && Apply(w, s).exports[k].spec == w.exports[k].spec)
  }

  ghost predicate SpecLeft(ws: seq<World>, steps: seq<Step>, k: Key, b: nat, n: nat)
    requires IsRun(ws, steps) && b <= n <= |steps|
  {
    forall j :: b <= j < n ==> Enabled(ws[j], steps[j]) && LeavesSpec(ws[j], steps[j], k)
  }

  lemma OwnKeepsSpec(w: World, s: Step, k: Key)
    requires Enabled(w, s) && Actor(s) == Some(k) && k in w.exports && !WorkerOf(Apply(w, s), k).Idle?
    ensures k in Apply(w, s).exports && Apply(w, s).exports[k].spec == w.exports[k].spec
  {
    hide Resolved, Cleaned, LookedUp, Generated, Written, Removed, CommittedStatus, SpecAccepted;
  }

  lemma {:induction false} SpecKept(ws: seq<World>, steps: seq<Step>, k: Key, b: nat, n: nat)
    requires InPass(ws, steps, k, b, n) && SpecLeft(ws, steps, k, b, n)
    ensures k in ws[n].exports && ws[n].exports[k].spec == ws[b].exports[k].spec && ws[n].exports[k].key == ws[b].exports[k].key
    decreases n
  {
    hide Apply, Enabled, LeavesSpec;
    var w, s := ws[n - 1], steps[n - 1];
    if n > b + 1 {
      SpecKept(ws, steps, k, b, n - 1);
    }
    assert !WorkerOf(ws[n], k).Idle?;
    if Actor(s) == Some(k) {
      OwnKeepsSpec(w, s, k);
    } else {
      SpecLeftAlone(w, s, k);
    }
    ExportAfter(w, s, k);
  }

  lemma SpecLeftAlone(w: World, s: Step, k: Key)
    requires Enabled(w, s) && LeavesSpec(w, s, k) && Actor(s) != Some(k) && k in w.exports
    ensures k in Apply(w, s).exports && Apply(w, s).exports[k].spec == w.exports[k].spec
  {
    hide Apply, Enabled;
  }

  lemma SettledMeansHome(item: Export, secrets: map<Key, Secret>)
    ensures RecordedTargetSettled(item, secrets) <==> Home(item, secrets) == SpecTarget(item)
    ensures SameAt(secrets, CleanedSecrets(secrets, item), SpecTarget(item))
    ensures Home(item, secrets) != SpecTarget(item) ==> CleanedSecrets(secrets, item) == secrets
    ensures LookupKey(item) in CleanedSecrets(secrets, item) ==>
              LookupKey(item) in secrets && CleanedSecrets(secrets, item)[LookupKey(item)] == secrets[LookupKey(item)]
  {
    hide IsOwnedSecret;
  }

  /**
   Nobody edits the spec or touches the two Secrets while the pass is under way.  Then Exported=True is
   true exactly when, before the pass, the recorded target was settled or the spec target already held
   what the pass obtains: the kubeconfig Omni issues to it, or else what the recorded Secret held.
   */
  lemma PassTruthful(ws: seq<World>, steps: seq<Step>, k: Key, b: nat, c: nat)
    requires Exports(ws, steps, k, b, c) && SecretsLeft(ws, steps, k, b, c) && SpecLeft(ws, steps, k, b, c)
    ensures k in ws[c + 1].exports
    ensures
      var item := ws[b].exports[k];
      Truthful(ws[c + 1], k) <==>
        || RecordedTargetSettled(item, ws[b].secrets)
        || Holds(ws[b].secrets, SpecTarget(item), TargetSecretKey(item.spec), Some(Hash(Obtained(ws, steps, k, b, c))))
  {
    hide Apply, Enabled, Obtained, LeavesSecrets, LeavesSpec, RecordedTargetSettled, Home, CleanedSecrets, LookupKey, Hash;
    EditedPassTruthful(ws, steps, k, b, c);
    SpecKept(ws, steps, k, b, c);
    PassOnTrack(ws, steps, k, b, c);
    SettledMeansHome(ws[b].exports[k], ws[b].secrets);
  }

  // ---------------------------------------------------------------- what a reuse obtains

  ghost predicate AsksNobody(steps: seq<Step>, k: Key, b: nat, n: nat)
    requires b <= n <= |steps|
  {
    forall j :: b <= j < n ==> !(steps[j].Generate? && steps[j].k == k)
  }

  /** Without a kubeconfig from Omni, nothing is written, and an export reported is the one looked up. */
  predicate Unwritten(item: Export, start: map<Key, Secret>, w: World, k: Key) {
    var p, cleaned := WorkerOf(w, k), CleanedSecrets(start, item);
    && !p.Writing?
    && (p.Reporting? && p.report.exported ==> LookupKey(item) in cleaned && Both(cleaned, w, item))
  }

  lemma UnwrittenStep(w: World, s: Step, k: Key, item: Export, start: map<Key, Secret>)
    requires Enabled(w, s) && OnTrack(item, start, w, k) && Unwritten(item, start, w, k)
    requires if Actor(s) == Some(k) then !s.Begin? && !s.Generate? else LeavesSecrets(w, s, k, item)
    ensures WorkerOf(Apply(w, s), k).Idle? || Unwritten(item, start, Apply(w, s), k)
  {
    if Actor(s) != Some(k) {
      WorkerAfter(w, s, k);
      hide Apply, Enabled, CleanedSecrets, LookupKey, SpecTarget;
    } else {
      hide CleanedSecrets, CleanupDeletes, FinalDeletes, LookupKey, SpecTarget, Home, BaseOf, CommittedStatus, Rewrite;
    }
  }

  lemma {:induction false} PassUnwritten(ws: seq<World>, steps: seq<Step>, k: Key, b: nat, n: nat)
    requires InPass(ws, steps, k, b, n) && SecretsLeft(ws, steps, k, b, n) && AsksNobody(steps, k, b, n)
    ensures Unwritten(ws[b].exports[k], ws[b].secrets, ws[n], k)
    decreases n
  {
    hide Apply, Enabled, OnTrack, LeavesSecrets, Unwritten;
    var w, s := ws[n - 1], steps[n - 1];
    if n == b + 1 {
      BeginUnwritten(w, k);
    } else {
      PassUnwritten(ws, steps, k, b, n - 1);
      PassOnTrack(ws, steps, k, b, n - 1);
      assert !WorkerOf(w, k).Idle?;
      if Actor(s) == Some(k) {
        NotBegin(w, s, k);
      }
      UnwrittenStep(w, s, k, ws[b].exports[k], ws[b].secrets);
    }
  }

  lemma BeginUnwritten(w: World, k: Key)
    requires Enabled(w, Begin(k, true)) && k in w.exports
    ensures Unwritten(w.exports[k], w.secrets, Apply(w, Begin(k, true)), k)
  {
    StepBegin(w, k, true);
    hide Apply, Enabled, SpecAccepted, CleanedSecrets, LookupKey, SpecTarget;
  }

  /** A pass that asks Omni for nothing obtains what the recorded Secret held before it. */
  lemma ReuseObtains(ws: seq<World>, steps: seq<Step>, k: Key, b: nat, c: nat)
    requires Exports(ws, steps, k, b, c) && SecretsLeft(ws, steps, k, b, c) && AsksNobody(steps, k, b, c)
    ensures
      var item := ws[b].exports[k];
      && LookupKey(item) in ws[b].secrets
      && Obtained(ws, steps, k, b, c) == Datum(ws[b].secrets[LookupKey(item)], TargetSecretKey(item.spec))
  {
    hide Apply, Enabled, Obtained, LeavesSecrets, LookupKey, SpecTarget, CleanedSecrets;
    PassUnwritten(ws, steps, k, b, c);
    PassOnTrack(ws, steps, k, b, c);
    PassCarries(ws, steps, k, b, c);
    SettledMeansHome(ws[b].exports[k], ws[b].secrets);
  }
}
