/**
 The admission webhook's checks beside the reconcilers' own: two independent implementations of
 what a valid spec is, related exactly.
 */
module Admission {
  import opened Kube
  import opened TrimmedText
  import KubeconfigExport
  import ExportModel
  import SecretSync
  import SecretSyncModel

  datatype Field =
    | ClusterRefName | SourceName | KubeconfigName | KubeconfigKey
    | TargetName | TargetNamespace | TargetKey | SecretType | ContextNamespace
    | User | Groups | Group(i: nat) | Machine(i: nat)
    | Ttl | RenewBefore | DeletionPolicy

  datatype Cause = Required | Duplicate | Forbidden | Invalid | NotSupported

  datatype FieldError = FieldError(field: Field, cause: Cause)

  // ---------------------------------------------------------------- the reconciler's check

  /** Holds something besides white space. */
  predicate Written(s: string) {
    exists i :: 0 <= i < |s| && !IsSpace(s[i])
  }

  lemma WrittenIff(s: string)
    ensures Written(s) <==> !Blank(s)
  {
    BlankMeansOnlySpace(s);
  }

  /** What an export must have for the reconciler to act on it, spelled out. */
  lemma ExportAcceptedIff(spec: KubeconfigExport.Spec)
    ensures ExportModel.SpecAccepted(spec) <==>
      && Written(spec.clusterRef) && Written(spec.targetName) && Written(spec.user)
      && (spec.targetNamespace == "" || Written(spec.targetNamespace)) && (spec.targetKey == "" || Written(spec.targetKey))
      && |spec.groups| > 0 && (forall i :: 0 <= i < |spec.groups| ==> Written(spec.groups[i]))
      && (spec.allowClusterAdmin || forall i :: 0 <= i < |spec.groups| ==> !Trimmed(spec.groups[i], "system:masters"))
      && 0 < spec.ttl && (spec.renewBefore.None? || 0 < spec.renewBefore.value < spec.ttl)
      && (spec.deletionPolicy == "Delete" || spec.deletionPolicy == "Orphan")
  {
    DefaultKeyNotBlank();
    forall s: string ensures Written(s) <==> !Blank(s) {
      WrittenIff(s);
    }
    forall s: string ensures TrimSpace(s) == "system:masters" <==> Trimmed(s, "system:masters") {
      TrimSpaceIs(s, "system:masters");
    }
    hide Written, Trimmed, TrimSpace;
  }

  lemma SyncAcceptedIff(spec: SecretSync.Spec)
    ensures SecretSyncModel.SpecAccepted(spec) <==>
      && Written(spec.clusterRef) && Written(spec.kubeconfigName) && Written(spec.source)
      && Written(spec.target.name) && Written(spec.target.namespace)
      && (spec.kubeconfigKey == "" || Written(spec.kubeconfigKey)) && (spec.kind == "" || Written(spec.kind))
      && (spec.deletionPolicy == "Delete" || spec.deletionPolicy == "Orphan")
  {
    forall s: string ensures Written(s) <==> !Blank(s) {
      WrittenIff(s);
    }
    hide Written, Blank;
  }

  /** kubeconfigExportSpecError: a field at fault, if any. */
  method KubeconfigExportSpecError(spec: KubeconfigExport.Spec) returns (error: Option<Field>)
    ensures error.None? <==> ExportModel.SpecAccepted(spec)
    ensures error.Some? ==> exists cause :: SpecFault(spec, FieldError(error.value, cause))
  {
    hide TrimSpace;
    DefaultKeyNotBlank();
    if Blank(spec.clusterRef) {
      assert SpecFault(spec, FieldError(ClusterRefName, Required));
      return Some(ClusterRefName);
    }
    if Blank(spec.targetName) {
      assert SpecFault(spec, FieldError(TargetName, Required));
      return Some(TargetName);
    }
    if spec.targetNamespace != "" && Blank(spec.targetNamespace) {
      assert SpecFault(spec, FieldError(TargetNamespace, Required));
      return Some(TargetNamespace);
    }
    if Blank(KubeconfigExport.TargetSecretKey(spec)) {
      assert SpecFault(spec, FieldError(TargetKey, Required));
      return Some(TargetKey);
    }
    if Blank(spec.user) {
      assert SpecFault(spec, FieldError(User, Required));
      return Some(User);
    }
    if |spec.groups| == 0 {
      assert SpecFault(spec, FieldError(Groups, Required));
      return Some(Groups);
    }
    for i := 0 to |spec.groups|
      invariant forall j :: 0 <= j < i ==> ExportModel.GroupAccepted(spec, spec.groups[j])
    {
      var group := TrimSpace(spec.groups[i]);
      if group == "" {
        assert SpecFault(spec, FieldError(Group(i), Required));
        return Some(Group(i));
      }
      if group == ExportModel.CLUSTER_ADMIN_GROUP && !spec.allowClusterAdmin {
        assert SpecFault(spec, FieldError(Group(i), Forbidden));
        return Some(Group(i));
      }
    }
    if spec.ttl <= 0 {
      assert SpecFault(spec, FieldError(Ttl, Invalid));
      return Some(Ttl);
    }
    if spec.renewBefore.Some? {
      if spec.renewBefore.value <= 0 {
        assert SpecFault(spec, FieldError(RenewBefore, Invalid));
        return Some(RenewBefore);
      }
      if spec.renewBefore.value >= spec.ttl {
        assert SpecFault(spec, FieldError(RenewBefore, Invalid));
        return Some(RenewBefore);
      }
    }
    if spec.deletionPolicy != POLICY_DELETE && spec.deletionPolicy != POLICY_ORPHAN {
      assert SpecFault(spec, FieldError(DeletionPolicy, if spec.deletionPolicy == "" then Required else NotSupported));
      return Some(DeletionPolicy);
    }
    return None;
  }

  // ---------------------------------------------------------------- the webhook's check

  predicate Repeats(groups: seq<string>, i: nat, n: nat)
    requires i < n <= |groups|
  {
    exists j :: 0 <= j < n && j != i && TrimSpace(groups[j]) == TrimSpace(groups[i])
  }

  /** What is wrong with group i among the first n, and why. */
  predicate GroupFault(spec: KubeconfigExport.Spec, n: nat, i: nat, cause: Cause)
    requires n <= |spec.groups|
  {
    && i < n
    && match cause
       case Required => Blank(spec.groups[i])
       case Duplicate => !Blank(spec.groups[i]) && Repeats(spec.groups, i, n)
       case Forbidden => TrimSpace(spec.groups[i]) == ExportModel.CLUSTER_ADMIN_GROUP && !spec.allowClusterAdmin
       case _ => false
  }

  /** The loop's errors are exactly the faults of the groups: both partners of every duplicate are named. */
  ghost predicate NamesGroupFaults(errors: seq<FieldError>, spec: KubeconfigExport.Spec, n: nat)
    requires n <= |spec.groups|
  {
    && (forall e :: e in errors ==> e.field.Group?)
    && (forall i: nat, cause :: FieldError(Group(i), cause) in errors <==> GroupFault(spec, n, i, cause))
  }

  /** seenGroups: for each non-blank group among the first n, a place where it occurs. */
  ghost predicate Places(seen: map<string, nat>, groups: seq<string>, n: nat)
    requires n <= |groups|
  {
    && (forall g :: g in seen ==> g != "" && seen[g] < n && TrimSpace(groups[seen[g]]) == g)
    && (forall j :: 0 <= j < n && TrimSpace(groups[j]) != "" ==> TrimSpace(groups[j]) in seen)
  }

  /** The errors that group n adds. */
  function Found(spec: KubeconfigExport.Spec, seen: map<string, nat>, n: nat): seq<FieldError>
    requires n < |spec.groups|
  {
    var group := TrimSpace(spec.groups[n]);
    if group == "" then [FieldError(Group(n), Required)]
    else
      (if group in seen then [FieldError(Group(n), Duplicate), FieldError(Group(seen[group]), Duplicate)] else [])
      + (if group == ExportModel.CLUSTER_ADMIN_GROUP && !spec.allowClusterAdmin
         then [FieldError(Group(n), Forbidden)] else [])
  }

  lemma FoundFaults(spec: KubeconfigExport.Spec, seen: map<string, nat>, n: nat, i: nat, cause: Cause)
    requires n < |spec.groups| && Places(seen, spec.groups, n)
    ensures GroupFault(spec, n + 1, i, cause) <==>
            GroupFault(spec, n, i, cause) || FieldError(Group(i), cause) in Found(spec, seen, n)
  {
    hide TrimSpace;
    var group := TrimSpace(spec.groups[n]);
    if cause.Duplicate? && i <= n {
      if group in seen {
        var p := seen[group];
        assert TrimSpace(spec.groups[p]) == group;
        if i < n && TrimSpace(spec.groups[i]) == group && i != p {
          assert Repeats(spec.groups, i, n);
        }
      }
      if i < n && Repeats(spec.groups, i, n) {
        var j :| 0 <= j < n && j != i && TrimSpace(spec.groups[j]) == TrimSpace(spec.groups[i]);
        assert Repeats(spec.groups, i, n + 1);
      }
    }
  }

  lemma NoFaultsYet(spec: KubeconfigExport.Spec)
    ensures NamesGroupFaults([], spec, 0)
  {
  }

  /** The groups loop of validateKubeconfigExport. */
  method GroupErrors(spec: KubeconfigExport.Spec) returns (errors: seq<FieldError>)
    ensures NamesGroupFaults(errors, spec, |spec.groups|)
  {
    hide TrimSpace, GroupFault;
    errors := [];
    var seen: map<string, nat> := map[];
    NoFaultsYet(spec);
    for n := 0 to |spec.groups|
      invariant NamesGroupFaults(errors, spec, n) && Places(seen, spec.groups, n)
    {
      ghost var before, found := errors, Found(spec, seen, n);
      forall i: nat, cause ensures GroupFault(spec, n + 1, i, cause) <==>
            GroupFault(spec, n, i, cause) || FieldError(Group(i), cause) in found {
        FoundFaults(spec, seen, n, i, cause);
      }
      var group := TrimSpace(spec.groups[n]);
      if group == "" {
        errors := errors + [FieldError(Group(n), Required)];
        continue;
      }
      if group in seen {
        errors := errors + [FieldError(Group(n), Duplicate), FieldError(Group(seen[group]), Duplicate)];
      }
      seen := seen[group := n];
      if group == ExportModel.CLUSTER_ADMIN_GROUP && !spec.allowClusterAdmin {
        errors := errors + [FieldError(Group(n), Forbidden)];
      }
      assert errors == before + found;
    }
  }

  /** What admission asks beyond the reconciler. */
  predicate Remainder(spec: KubeconfigExport.Spec) {
    && (forall i, j :: 0 <= i < j < |spec.groups| ==> TrimSpace(spec.groups[i]) != TrimSpace(spec.groups[j]))
    && (spec.contextNamespace != "" ==> !Blank(spec.contextNamespace))
  }

  /** The groups draw no error exactly when the reconciler accepts each and no two agree once trimmed. */
  lemma CleanGroups(errors: seq<FieldError>, spec: KubeconfigExport.Spec)
    requires NamesGroupFaults(errors, spec, |spec.groups|)
    ensures errors == [] <==>
            && (forall i :: 0 <= i < |spec.groups| ==> ExportModel.GroupAccepted(spec, spec.groups[i]))
            && (forall i, j :: 0 <= i < j < |spec.groups| ==> TrimSpace(spec.groups[i]) != TrimSpace(spec.groups[j]))
  {
    hide TrimSpace;
    var n := |spec.groups|;
    if errors != [] {
      var e := errors[0];
      assert e == FieldError(Group(e.field.i), e.cause) && e in errors;
      assert GroupFault(spec, n, e.field.i, e.cause);
    } else {
      forall i | 0 <= i < n ensures ExportModel.GroupAccepted(spec, spec.groups[i]) {
        assert !GroupFault(spec, n, i, Required) && !GroupFault(spec, n, i, Forbidden);
      }
      forall i, j | 0 <= i < j < n ensures TrimSpace(spec.groups[i]) != TrimSpace(spec.groups[j]) {
        assert !GroupFault(spec, n, i, Required) && !GroupFault(spec, n, i, Duplicate);
      }
    }
  }

  predicate SetButBlank(s: string) {
    s != "" && Blank(s)
  }

  /** What else can be wrong with an export's spec, field by field. */
  predicate FieldFault(spec: KubeconfigExport.Spec, e: FieldError) {
    match e.field
    case ClusterRefName => e.cause.Required? && Blank(spec.clusterRef)
    case TargetName => e.cause.Required? && Blank(spec.targetName)
    case TargetNamespace => e.cause.Required? && SetButBlank(spec.targetNamespace)
    case ContextNamespace => e.cause.Required? && SetButBlank(spec.contextNamespace)
    case TargetKey => e.cause.Required? && SetButBlank(spec.targetKey)
    case User => e.cause.Required? && Blank(spec.user)
    case Groups => e.cause.Required? && spec.groups == []
    case Ttl => e.cause.Invalid? && spec.ttl <= 0
    case RenewBefore =>
      e.cause.Invalid? && spec.renewBefore.Some?
      && (spec.renewBefore.value <= 0 || 0 < spec.ttl <= spec.renewBefore.value)
    case DeletionPolicy => PolicyFault(spec.deletionPolicy, e.cause)
    case _ => false
  }

  predicate PolicyFault(policy: string, cause: Cause) {
    if policy == "" then cause.Required?
    else policy != POLICY_DELETE && policy != POLICY_ORPHAN && cause.NotSupported?
  }

  /** One check: append the error if its condition holds. */
  function Check(errors: seq<FieldError>, wrong: bool, e: FieldError): (r: seq<FieldError>)
    ensures forall x :: x in r <==> x in errors || (wrong && x == e)
    ensures r == [] <==> errors == [] && !wrong
  {
    if wrong then errors + [e] else errors
  }

  /** The policy switch that both validators end with. */
  method PolicyErrors(before: seq<FieldError>, policy: string) returns (errors: seq<FieldError>)
    ensures forall e :: e in errors <==> e in before || (e.field.DeletionPolicy? && PolicyFault(policy, e.cause))
    ensures errors == [] <==> before == [] && policy in {POLICY_DELETE, POLICY_ORPHAN}
  {
    if policy == POLICY_DELETE || policy == POLICY_ORPHAN {
      return before;
    }
    return before + [FieldError(DeletionPolicy, if policy == "" then Required else NotSupported)];
  }

  /** The checks before the groups loop. */
  method NameErrors(spec: KubeconfigExport.Spec) returns (errors: seq<FieldError>)
    ensures forall e :: e in errors <==>
      FieldFault(spec, e) && !e.field.Ttl? && !e.field.RenewBefore? && !e.field.DeletionPolicy?
  {
    hide Blank, SetButBlank, PolicyFault, Check;
    errors := [];
    errors := Check(errors, Blank(spec.clusterRef), FieldError(ClusterRefName, Required));
    errors := Check(errors, Blank(spec.targetName), FieldError(TargetName, Required));
    errors := Check(errors, SetButBlank(spec.targetNamespace), FieldError(TargetNamespace, Required));
    errors := Check(errors, SetButBlank(spec.contextNamespace), FieldError(ContextNamespace, Required));
    errors := Check(errors, SetButBlank(spec.targetKey), FieldError(TargetKey, Required));
    errors := Check(errors, Blank(spec.user), FieldError(User, Required));
    errors := Check(errors, |spec.groups| == 0, FieldError(Groups, Required));
  }

  /** The checks after the groups loop. */
  method LifetimeAndPolicyErrors(spec: KubeconfigExport.Spec) returns (errors: seq<FieldError>)
    ensures forall e :: e in errors <==>
      FieldFault(spec, e) && (e.field.Ttl? || e.field.RenewBefore? || e.field.DeletionPolicy?)
  {
    hide Blank, SetButBlank, PolicyFault, Check;
    errors := [];
    if spec.ttl <= 0 {
      errors := errors + [FieldError(Ttl, Invalid)];
    }
    if spec.renewBefore.Some? {
      if spec.renewBefore.value <= 0 {
        errors := errors + [FieldError(RenewBefore, Invalid)];
      } else if spec.ttl > 0 && spec.renewBefore.value >= spec.ttl {
        errors := errors + [FieldError(RenewBefore, Invalid)];
      }
    }
    errors := PolicyErrors(errors, spec.deletionPolicy);
  }

  lemma DefaultKeyNotBlank()
    ensures !Blank(KubeconfigExport.DEFAULT_SECRET_KEY)
  {
    BlankMeansOnlySpace(KubeconfigExport.DEFAULT_SECRET_KEY);
    assert !IsSpace(KubeconfigExport.DEFAULT_SECRET_KEY[0]);
  }

  lemma GroupsAreNoField(spec: KubeconfigExport.Spec)
    ensures forall e :: FieldFault(spec, e) ==> !e.field.Group?
  {
  }

  ghost predicate NoFieldFault(spec: KubeconfigExport.Spec) {
    forall e :: !FieldFault(spec, e)
  }

  /** No field is at fault exactly when the reconciler would pass all but the groups and the context namespace is fine. */
  lemma NoFieldFaultIff(spec: KubeconfigExport.Spec)
    ensures NoFieldFault(spec) <==>
            && !Blank(spec.clusterRef) && !Blank(spec.targetName) && !Blank(spec.user) && spec.groups != []
            && (spec.targetNamespace != "" ==> !Blank(spec.targetNamespace))
            && (spec.contextNamespace != "" ==> !Blank(spec.contextNamespace))
            && !Blank(KubeconfigExport.TargetSecretKey(spec))
            && ExportModel.LifetimeAccepted(spec) && spec.deletionPolicy in {POLICY_DELETE, POLICY_ORPHAN}
  {
    DefaultKeyNotBlank();
    hide Blank;
    if NoFieldFault(spec) {
      assert !FieldFault(spec, FieldError(ClusterRefName, Required)) && !FieldFault(spec, FieldError(TargetName, Required));
      assert !FieldFault(spec, FieldError(User, Required)) && !FieldFault(spec, FieldError(Groups, Required));
      assert !FieldFault(spec, FieldError(TargetNamespace, Required)) && !FieldFault(spec, FieldError(TargetKey, Required));
      assert !FieldFault(spec, FieldError(ContextNamespace, Required));
      assert !FieldFault(spec, FieldError(Ttl, Invalid)) && !FieldFault(spec, FieldError(RenewBefore, Invalid));
      assert !FieldFault(spec, FieldError(DeletionPolicy, Required));
      assert !FieldFault(spec, FieldError(DeletionPolicy, NotSupported));
    }
  }

  /** Every way an export's spec can be refused. */
  predicate SpecFault(spec: KubeconfigExport.Spec, e: FieldError) {
    if e.field.Group? then GroupFault(spec, |spec.groups|, e.field.i, e.cause) else FieldFault(spec, e)
  }

  /**
   validateKubeconfigExport reports exactly the faults of the spec, and admits exactly the specs
   that the reconciler accepts, whose trimmed groups are pairwise distinct and whose context
   namespace, when set, is not blank.
   */
  method ValidateKubeconfigExport(spec: KubeconfigExport.Spec) returns (errors: seq<FieldError>)
    ensures forall e :: e in errors <==> SpecFault(spec, e)
    ensures errors == [] <==> ExportModel.SpecAccepted(spec) && Remainder(spec)
  {
    hide Blank, TrimSpace, GroupFault, FieldFault, ExportModel.LifetimeAccepted, ExportModel.GroupAccepted;
    var names := NameErrors(spec);
    var groups := GroupErrors(spec);
    var rest := LifetimeAndPolicyErrors(spec);
    errors := names + groups + rest;
    CleanGroups(groups, spec);
    NoFieldFaultIff(spec);
    GroupsAreNoField(spec);
    forall e ensures e in errors <==> SpecFault(spec, e) {
      if e.field.Group? {
        assert e == FieldError(Group(e.field.i), e.cause);
      }
    }
    assert errors == [] <==> groups == [] && NoFieldFault(spec) by {
      if errors == [] {
        assert forall e :: FieldFault(spec, e) ==> e in names || e in rest;
      } else if groups == [] {
        assert errors[0] in names || errors[0] in rest;
      }
    }
  }

  // ---------------------------------------------------------------- secret sync

  /** secretSyncSpecError. */
  method SecretSyncSpecError(spec: SecretSync.Spec) returns (error: Option<Field>)
    ensures error.None? <==> SecretSyncModel.SpecAccepted(spec)
    ensures error.Some? ==> exists cause :: SyncFault(spec, FieldError(error.value, cause))
  {
    hide Blank;
    if Blank(spec.clusterRef) { assert SyncFault(spec, FieldError(ClusterRefName, Required)); return Some(ClusterRefName); }
    if Blank(spec.kubeconfigName) { assert SyncFault(spec, FieldError(KubeconfigName, Required)); return Some(KubeconfigName); }
    if SetButBlank(spec.kubeconfigKey) {
      assert SyncFault(spec, FieldError(KubeconfigKey, Required));
      return Some(KubeconfigKey);
    }
    if Blank(spec.source) { assert SyncFault(spec, FieldError(SourceName, Required)); return Some(SourceName); }
    if Blank(spec.target.name) { assert SyncFault(spec, FieldError(TargetName, Required)); return Some(TargetName); }
    if Blank(spec.target.namespace) { assert SyncFault(spec, FieldError(TargetNamespace, Required)); return Some(TargetNamespace); }
    if SetButBlank(spec.kind) { assert SyncFault(spec, FieldError(SecretType, Invalid)); return Some(SecretType); }
    if spec.deletionPolicy != POLICY_DELETE && spec.deletionPolicy != POLICY_ORPHAN {
      assert SyncFault(spec, FieldError(DeletionPolicy, if spec.deletionPolicy == "" then Required else NotSupported));
      return Some(DeletionPolicy);
    }
    return None;
  }

  predicate SyncFault(spec: SecretSync.Spec, e: FieldError) {
    match e.field
    case ClusterRefName => e.cause.Required? && Blank(spec.clusterRef)
    case KubeconfigName => e.cause.Required? && Blank(spec.kubeconfigName)
    case KubeconfigKey => e.cause.Required? && SetButBlank(spec.kubeconfigKey)
    case SourceName => e.cause.Required? && Blank(spec.source)
    case TargetName => e.cause.Required? && Blank(spec.target.name)
    case TargetNamespace => e.cause.Required? && Blank(spec.target.namespace)
    case SecretType => e.cause.Invalid? && SetButBlank(spec.kind)
    case DeletionPolicy => PolicyFault(spec.deletionPolicy, e.cause)
    case _ => false
  }

  /** validateSecretSync reports exactly the faults of the spec and admits exactly what the reconciler accepts. */
  method ValidateSecretSync(spec: SecretSync.Spec) returns (errors: seq<FieldError>)
    ensures forall e :: e in errors <==> SyncFault(spec, e)
    ensures errors == [] <==> SecretSyncModel.SpecAccepted(spec)
  {
    hide Blank, PolicyFault, Check;
    errors := [];
    errors := Check(errors, Blank(spec.clusterRef), FieldError(ClusterRefName, Required));
    errors := Check(errors, Blank(spec.kubeconfigName), FieldError(KubeconfigName, Required));
    errors := Check(errors, SetButBlank(spec.kubeconfigKey), FieldError(KubeconfigKey, Required));
    errors := Check(errors, Blank(spec.source), FieldError(SourceName, Required));
    errors := Check(errors, Blank(spec.target.name), FieldError(TargetName, Required));
    errors := Check(errors, Blank(spec.target.namespace), FieldError(TargetNamespace, Required));
    errors := Check(errors, SetButBlank(spec.kind), FieldError(SecretType, Invalid));
    errors := PolicyErrors(errors, spec.deletionPolicy);
  }

  /** ValidateUpdate: the edits that the secret-sync machine's users may make. */
  method ValidateSecretSyncUpdate(before: SecretSync.Spec, after: SecretSync.Spec) returns (errors: seq<FieldError>)
    ensures errors == [] <==> SecretSyncModel.Admitted(before, after)
  {
    hide SecretSyncModel.SpecAccepted, SyncFault;
    errors := ValidateSecretSync(after);
    errors := Check(errors, before.kubeconfigName != after.kubeconfigName, FieldError(KubeconfigName, Forbidden));
    errors := Check(errors, before.kubeconfigKey != after.kubeconfigKey, FieldError(KubeconfigKey, Forbidden));
  }

  // ---------------------------------------------------------------- machine IDs

  predicate MachineFault(ids: seq<string>, isUuid: string -> bool, n: nat, i: nat, cause: Cause)
    requires n <= |ids|
  {
    && i < n
    && match cause
       case Invalid => !isUuid(ids[i])
       case Duplicate => exists j :: 0 <= j < n && j != i && ids[j] == ids[i]
       case _ => false
  }

  /** validateMachineIDs names exactly the malformed IDs and both partners of every duplicate. */
  method ValidateMachineIDs(ids: seq<string>, isUuid: string -> bool) returns (errors: seq<FieldError>)
    ensures forall e :: e in errors <==> e.field.Machine? && MachineFault(ids, isUuid, |ids|, e.field.i, e.cause)
  {
    errors := [];
    var seen: map<string, nat> := map[];
    for n := 0 to |ids|
      invariant forall id :: id in seen ==> seen[id] < n && ids[seen[id]] == id
      invariant forall j :: 0 <= j < n ==> ids[j] in seen
      invariant forall e :: e in errors <==> e.field.Machine? && MachineFault(ids, isUuid, n, e.field.i, e.cause)
    {
      var id := ids[n];
      if !isUuid(id) { errors := errors + [FieldError(Machine(n), Invalid)]; }
      if id in seen { errors := errors + [FieldError(Machine(n), Duplicate), FieldError(Machine(seen[id]), Duplicate)]; }
      seen := seen[id := n];
    }
  }
}
