# Omni cluster operator: a verified model of its reconcilers

The operator keeps Kubernetes objects in step with Sidero Omni and with the workload clusters Omni
runs. This project models the parts of it that are hard to get right, as Dafny 4.11 modules, and
proves what they keep over every run. `dafny verify dfyconfig.toml` checks all of it.

Each reconciler appears twice. A small-step machine (`ExportModel`, `SecretSyncModel`, `Lifecycle`,
`ClusterStatus`) splits a pass into its reads, foreign calls, writes and status commits, so that
user edits, deletion marks, other reconcilers and failing calls may fall between any two of them.
A class (`ExportServer`, `SecretSyncServer`, `LifecycleServer`, `ClusterServer`) runs the pass in
the program's own order on fields it updates in place, and is proved to be a run of that machine.
A status commit or a finalizer removal is one step of a machine because `Retry` proves that the
loop around it is one atomic update. The three child reconcilers share one machine (`ChildStatus`). Safety results are about runs: sequences of worlds `ws` and steps `steps` with
`ws[i + 1] == Apply(ws[i], steps[i])`. History is read off the run itself, not off history variables.

| modules | what they hold |
|---|---|
| `Kube`, `TrimmedText`, `Sorting` | Secrets, conditions, digests; `strings.TrimSpace`; the string sort |
| `KubeconfigExport`, `ExportModel`, `ExportSteps`, `ExportServer` | kubeconfig export: package, machine, one-step facts, reconciler |
| `ExportSafety`, `ExportRate`, `ExportTruth`, `ExportReports`, `ExportCleanup` | its safety over runs, its rotation schedule, whether `Exported=True` is true, what each status says, what it leaves behind |
| `ExportRuns`, `ExportWitness`, `ExportRateExact`, `ExportOccupied` | uninterrupted passes, and runs from an initial world that show each condition to be needed |
| `SecretSync`, `SecretSyncModel`, `SecretSyncSafety`, `SecretSyncReports`, `SecretSyncServer` | secret sync: package and workload cluster, machine, safety, what each status says, reconciler |
| `Lifecycle`, `LifecycleFrames`, `LifecycleServer` | finalizer protocols of clusters, Helm releases and connections; who may touch what in them |
| `ClusterStatus`, `ClusterReports`, `ClusterServer` | what an OmniCluster's status says, over runs, pass by pass and as the program runs |
| `Retry`, `ChildStatus` | retry-on-conflict writes; the Accepted condition of child objects |
| `Template`, `Watches` | template rendering; request mappers and event predicate |
| `Admission` | webhook checks against reconcile-time checks |

## Results

- **Kubeconfig export.** A reused kubeconfig is one Omni issued for exactly the current inputs
  (`CacheSoundness`); a Secret an export deletes was last rewritten by that export
  (`DeletionSafety`); a rewrite touches only data keys the export has targeted (`RewriteFrame`);
  `Exported=True` is true exactly when the target stored at the commit holds what the pass obtained,
  whatever falls between its steps (`TruthAtCommit`, and `PassTruthful` for what can be checked
  beforehand); an export whose target is never edited leaves no Secret behind
  (`FixedTargetLeavesNothingBehind`). Each committed status says how its pass ended, from the reads the
  pass made, field by field (`ExportReports.StatusSays`).
- **Rotation rate.** The clock readings that stamp the rotations of a calm run are at least
  ttl - renewBefore - 999,999,999 ns apart (`RotationsSpaced`), any three writes span that gap
  (`WritesSpaced`), and the number of writes in a run is bounded by it (`RotationRate`). The gap is
  attained by a run (`GapIsAttained`), and the rate is bounded at all if and only if it is positive
  (`BoundedIffGap`). A successful pass asks to be woken at a time when its Secret is due.
- **Secret sync** leaves no Secret behind in the workload cluster (`LeavesNothingBehind`), takes one away
  only under the Delete policy (`SecretGoesOnlyByPolicy`), writes only faithful copies of the source
  (`SecretWrittenIsCopy`), and says Synced=True only of one it delivered (`SyncedIsEarned`).
- **Finalizers.** A vanished cluster or Helm release leaves nothing remote
  (`VanishedLeavesNothingRemote`); a connection outlives the clusters that reference it
  (`ConnectionOutlivesUsers`), so each cluster finalizer finds it. Something remote goes only by a pass of
  a held, non-Orphan owner under deletion that names it (`RemoteGoesOnlyByOwner`), an Orphan or suspended
  owner is left in place (`LeftInPlace`), and the finalizers of others survive (`OwnerAfter`, `OwnerGoes`).
- **Status.** A ready OmniCluster is validated and synced at its observed generation, and its
  template was accepted by Omni (`ReadyIsCoherent`, `ReadyIsEarned`); what a pass over it commits is the
  verdict of the step that ended the pass (`ClusterReports.StatusSays`); an export's conditions agree
  with the hash and expiry recorded (`StatusCoherence`).
- **Writes, watches, templates, admission.** A retry loop is one atomic update or none; a cluster
  whose inputs change is woken; rendering does not depend on list order; admission is the
  reconciler's check plus a stated remainder.

## Where a natural claim is false of the code

The code is modelled as it is. For each of these the exact condition under which the claim does hold
is proved. The runs named here, which show it to be needed, start in an initial world or in a state
reached from one.

- An Orphan-policy retarget reuses the Secret at the *recorded* name and reports `Exported=True`
  for the new name, which may not exist: `OrphanRetargetReportsMissingSecret`. In a run that leaves
  the spec and the two Secrets alone, the report is true if and only if the recorded target was
  settled or the new Secret already held what the pass obtains (`PassTruthful`).
- A user who retargets an export after its pass has looked up or written the Secret and before it
  reports also gets `Exported=True` for a Secret that may not exist: `MidPassEditMisreports`. With
  edits allowed, the report is true if and only if the stored target and key are still those of the
  pass or hold the same bytes (`EditedPassTruthful`).
- A Delete-policy retarget onto a name that is already taken removes the old Secret and then cannot
  write the new one. A pass can write its Secret if and only if the name was not occupied
  (`WritableIffNotOccupied`); no further pass settles it (`OccupiedTargetNeverSettles`), each asks Omni
  for a fresh kubeconfig (`OccupiedLoop`), and only a stored failure report ends it, by adopting the
  foreign Secret (`ReportEndsIt`).
- A rewritten Secret is current if and only if the kubeconfig is not empty and rotation is not due
  (`RewrittenIsCurrentIff`), so an empty kubeconfig is rotated on every pass: `EmptyKubeconfigLoop`.
- An accepted spec may leave less than a second between ttl and renewBefore. Then a freshly written
  Secret can be due at once and the Secret watch does drive a rotation loop: `RotationLoop`, exact by
  `BoundedIffGap`.
- A failure that a secret sync reports before the previous target is cleaned up overwrites the recorded
  target, and `DeleteFailed` itself is such a failure. The old Secret is then forgotten:
  `DeleteFailedForgets`, exact by `SecretSyncSafety.GuardIsExact`.
- The same holds of exports: a failure reported after a retarget and before cleanup leaves the old
  Secret behind, still labelled: `FailureForgetsTarget`, exact by `ExportCleanup.GuardIsExact`.
- A cluster that starts to reference a connection between the connection's scan and the removal of
  its finalizer loses the connection: `LateReferenceLosesConnection`, exact by `ScanGuardIsExact`.
- An owner that is renamed, moved to another dependency or switched to Orphan forgets what it left
  under the old name: `RenameLeavesRemoteBehind`, exact by `CleanupGuardIsExact`.
- Two worker sets with one effective name, or two machines with one id, make the rendered references
  depend on the order the sort picks (`CanonicalIffNoClash`). The template and its hash depend on it if
  and only if two that clash render to different documents (`TemplateIffClashesAgree`).
- A child's Accepted condition is decided for the cluster named when the pass began and reported of
  the one named at the write: `MovedChildMisreports`, exact by `AcceptedTruthfulIff`. Such a report
  never outlasts the next pass, which is already due (`QuietIsTruthful`).
- A Secret event wakes the export that rewrote the Secret last if and only if the owner annotation is
  still there, and the namespace annotation too unless both live in one namespace
  (`SecretEventWakesAuthor`).

Two further observations. The ownership test at
`internal/controller/omnikubeconfigexport_controller.go:180` runs after the operator's own labels
have been merged in, so it always succeeds; `Rewrite` keeps it in place. And the code lets an export
name a target namespace other than its own; the model follows the code.

## Model

| member | source | states |
|---|---|---|
| KubeconfigExport.AnnotationRoundTrip | internal/kubeconfigexport/kubeconfigexport.go:112-165 | an instant written as an annotation and read back is rounded down by less than a second, and is itself exactly on whole seconds |
| KubeconfigExport.RotationDueIff | internal/kubeconfigexport/kubeconfigexport.go:136-149 | rotation is due if and only if the remaining lifetime is at most renewBefore, or at most nothing when that is not set |
| KubeconfigExport.OwnershipIsMarked | internal/kubeconfigexport/kubeconfigexport.go:124-133 | ownership is by a mark that is present: the uid label, or for an export without uid the name annotation |
| ExportSafety.AlwaysHonest | internal/controller/omnikubeconfigexport_controller.go:637-661 | in every reachable state each export, stored or remembered by its worker, carries a uid and records only data keys it has targeted |
| ExportSafety.RewriteTouches | internal/controller/omnikubeconfigexport_controller.go:175-187 | a rewrite stores the new kubeconfig and changes nothing but the target key, the recorded key and the operator's own marks |
| ExportSafety.RewriteContents | internal/controller/omnikubeconfigexport_controller.go:175-187 | a rewrite leaves the kubeconfig under the effective key, every mark with its value (uid, cluster, owner name and namespace, content hash, input hash, expiry and rotation on whole seconds), and drops a superseded key exactly if it was recorded for the same Secret |
| ExportSafety.RewriteFrame | internal/controller/omnikubeconfigexport_controller.go:175-191 | over any run, a rewrite changes only data keys this export has targeted at some point, keeps every foreign label and annotation, and leaves exactly the marks of its pass |
| ExportSafety.OwnerLabelIsLastRewriter | internal/kubeconfigexport/kubeconfigexport.go:103-133 | over any run, the owner label on a Secret names the export that rewrote it last |
| ExportSafety.DeletionSafety | internal/controller/omnikubeconfigexport_controller.go:470-501 | a Secret that a pass deletes was most recently rewritten by that same export, however exports share, adopt and retarget; it goes only under the Delete policy, and is the recorded one of an export that moved away, or the one looked up by an export under deletion |
| ExportSafety.CleanupClears | internal/controller/omnikubeconfigexport_controller.go:470-501 | a cleanup that succeeds for a Delete export that has moved leaves no Secret of its own at the recorded place; it touches no other Secret, and none at all under another policy or without a move |
| ExportSafety.RemoverIsDeleting | internal/controller/omnikubeconfigexport_controller.go:84-90 | in every reachable state a pass that removes or releases works on a held export under deletion |
| ExportSafety.ExportGoesOnlyIfDeleted | internal/controller/omnikubeconfigexport_controller.go:213-233 | over any run an export goes only by its user's deletion: at once if the operator does not hold it, otherwise by the release of a pass |
| ExportSafety.CacheAlways | internal/controller/omnikubeconfigexport_controller.go:134-191 | in every reachable state the cache annotations of a Secret describe a credential that Omni issued earlier |
| ExportSafety.CacheSoundness | internal/controller/omnikubeconfigexport_controller.go:510-561 | a reused kubeconfig is byte for byte one Omni issued for the same cluster name, key, context namespace, user, groups and ttl, with more than renewBefore (or more than nothing) of its lifetime left |
| ExportSafety.StatusCoherence | internal/controller/omnikubeconfigexport_controller.go:662-697 | in every reachable state Ready and Exported agree and are True exactly when hash and expiration are recorded |
| ExportRate.SteadyStep | internal/controller/omnikubeconfigexport_controller.go:123-210 | one step of a calm run keeps the schedule, and a rotation in it comes no sooner than the gap after the last |
| ExportRate.RotationsSpaced | internal/controller/omnikubeconfigexport_controller.go:123-210 | the clock readings that stamp the rotations of a calm run are at least ttl - renewBefore - 999,999,999 ns apart |
| ExportRate.StampsAndWrites | internal/controller/omnikubeconfigexport_controller.go:123-191 | in any run each write comes between the clock reading that stamps it and the one that stamps the next |
| ExportRate.WritesSpaced | internal/controller/omnikubeconfigexport_controller.go:123-191 | any three writes of a calm run span at least that gap |
| ExportRate.RotationRate | internal/controller/omnikubeconfigexport_controller.go:375-387 | a calm run over a time D makes at most 1 + D / gap writes, so with a positive gap the Secret watch cannot drive a rotation loop |
| ExportRateExact.GapIsAttained | internal/kubeconfigexport/kubeconfigexport.go:136-149 | for every accepted spec with a positive gap, a calm run from a reachable state holds two rotations exactly the gap apart |
| ExportRateExact.RotationLoop | internal/controller/omnikubeconfigexport_controller.go:563-574 | for every accepted spec without one, a calm run holds any number of rotations at one instant |
| ExportRateExact.BoundedIffGap | internal/controller/omnikubeconfigexport_controller.go:604-613 | the rate is bounded if and only if the gap is positive, and then one instant holds at most one rotation |
| ExportRateExact.RotateAgain | internal/controller/omnikubeconfigexport_controller.go:163-210 | an uninterrupted pass over a Secret that is not current rotates it, at any time |
| ExportRateExact.FreshIsReusedIff | internal/controller/omnikubeconfigexport_controller.go:544-561 | what was rewritten at one time is reused at another if and only if it is not empty, not proved stale and not due |
| ExportRate.RotationReschedules | internal/controller/omnikubeconfigexport_controller.go:563-574 | after a rotation under an accepted spec the pass asks to be woken exactly ttl - renewBefore after it read the clock, or ttl when that is not set; the delay is positive and the wake-up finds rotation due on the stored expiry |
| ExportRate.ReuseReschedules | internal/controller/omnikubeconfigexport_controller.go:137-162 | after a reuse the delay is positive, ends when exactly renewBefore of the lifetime is left, the wake-up finds rotation due and one nanosecond earlier it would not |
| ExportRate.CurrentIff | internal/controller/omnikubeconfigexport_controller.go:510-542 | a Secret is current if and only if it holds a non-empty kubeconfig whose hash, input hash and expiry are annotated, its last rotation is readable, and more than renewBefore of the lifetime is left; the state returned is that credential |
| ExportRate.MarkedIsCurrentIff | internal/controller/omnikubeconfigexport_controller.go:510-542 | a Secret edited since its rewrite, looked up for an export edited since then, is current if and only if the kubeconfig is still there and not empty, the same credential is asked for and rotation is not due |
| ExportRate.RewrittenIsCurrentIff | internal/controller/omnikubeconfigexport_controller.go:510-542 | a Secret just rewritten is current at a time if and only if the kubeconfig is not empty and rotation is not due then |
| ExportRateExact.EmptyKubeconfigLoop | internal/controller/omnikubeconfigexport_controller.go:510-520 | for every accepted spec, a run from a reachable state in which any number of passes rotate an empty kubeconfig at one instant |
| ExportTruth.TruthAtCommit | internal/controller/omnikubeconfigexport_controller.go:637-675 | in any run, whatever interleaves, Exported=True is true if and only if at the commit the stored spec's target holds what the pass obtained |
| ExportTruth.EditedPassTruthful | internal/controller/omnikubeconfigexport_controller.go:444-468 | if only the two Secrets of the item are left alone, it is true if and only if the stored target and key are where the pass found or put its kubeconfig, or hold the same bytes |
| ExportTruth.PassTruthful | internal/controller/omnikubeconfigexport_controller.go:123-206 | if the spec is left alone too, it is true if and only if before the pass the recorded target was settled or the spec target held what the pass obtains |
| ExportTruth.ReuseObtains | internal/controller/omnikubeconfigexport_controller.go:134-162 | a pass that asks Omni for nothing obtains what the recorded Secret held before it |
| ExportReports.PassKnows | internal/controller/omnikubeconfigexport_controller.go:104-206 | whatever falls between its steps, what a pass in progress carries is what it met: the cluster, connection and clock as it read them, the Secret it looked up, the answer Omni gave |
| ExportReports.StatusSays | internal/controller/omnikubeconfigexport_controller.go:637-705 | in any run the status a pass commits names the stored spec's target, key and generation; says Accepted exactly if the cluster existed when read; gives the verdict and reason of how the pass ended; names the cluster in Omni and the connection; and records hash, expiry, last and next rotation of the credential obtained, or none of these |
| ExportWitness.MidPassEditMisreports | internal/controller/omnikubeconfigexport_controller.go:640-652 | for every accepted spec, a run from an initial world in which an edit between write and report makes Exported=True name a Secret that does not exist |
| ExportWitness.OrphanRetargetReportsMissingSecret | internal/controller/omnikubeconfigexport_controller.go:450-456 | for every accepted Orphan spec, a run from an initial world in which a retarget makes Exported=True name a Secret that does not exist |
| ExportOccupied.WritableIffNotOccupied | internal/controller/omnikubeconfigexport_controller.go:163-191 | in any run that leaves the two Secrets alone, a pass can write its kubeconfig if and only if before it the spec target was not occupied |
| ExportOccupied.OccupiedTargetNeverSettles | internal/controller/omnikubeconfigexport_controller.go:163-191 | however many passes a run holds, an export retargeted onto a taken name lands no write and keeps its status |
| ExportOccupied.ReportEndsIt | internal/controller/omnikubeconfigexport_controller.go:646-651 | a stored report names the spec target, so the next pass finds what sits there |
| ExportOccupied.OccupiedLoop | internal/controller/omnikubeconfigexport_controller.go:290-372 | a run from an initial world into that state, in which the passes use up any number of kubeconfigs |
| ExportCleanup.InvStep | internal/controller/omnikubeconfigexport_controller.go:470-501 | every remembering step keeps: a Secret with the export's label is where the export looks it up, unless a report is pending |
| ExportCleanup.ExportLeavesNothingBehind | internal/controller/omnikubeconfigexport_controller.go:213-233 | on every run of remembering steps no Secret carries the label once the export has vanished |
| ExportCleanup.GuardIsExact | internal/controller/omnikubeconfigexport_controller.go:646-651 | an edit, a report or a write keeps that if and only if it does not move the looked-up place away from a labelled Secret |
| ExportCleanup.FixedTargetLeavesNothingBehind | internal/controller/omnikubeconfigexport_controller.go:213-233 | on every run in which the target is never edited, under the Delete policy, no Secret carries the label once the export has vanished |
| ExportCleanup.FailureForgetsTarget | internal/controller/omnikubeconfigexport_controller.go:248-267 | for every two accepted Delete specs with different targets, a run from an initial world that leaves the old Secret behind |
| ExportServer.Server.Start | internal/controller/omnikubeconfigexport_controller.go:78-104 | read, deletion branch, finalizer and spec check are the machine's Begin; what the pass does next follows from the stored export's deletion mark, finalizer and spec |
| ExportServer.Server.Dependencies | internal/controller/omnikubeconfigexport_controller.go:248-288 | the cluster and connection reads are the machine's Resolve; the pass goes on exactly if both are there, and otherwise blames the one that is missing |
| ExportServer.Server.DeletePreviousTargetSecret | internal/controller/omnikubeconfigexport_controller.go:470-501 | exactly the recorded Secret goes, and exactly when cleanup is needed, this export owns it and the deletion takes effect |
| ExportServer.Server.Clean | internal/controller/omnikubeconfigexport_controller.go:123-127 | the cleanup is the machine's Cleanup |
| ExportServer.Server.TargetSecret | internal/controller/omnikubeconfigexport_controller.go:444-468 | the Secret found is the one at the recorded target if both its names are recorded, otherwise the one at the spec target |
| ExportServer.Server.PutSecret | internal/controller/omnikubeconfigexport_controller.go:163-191 | a write that takes effect stores the rewritten Secret at its key and changes no other Secret; one against another version is refused |
| ExportServer.Server.Write | internal/controller/omnikubeconfigexport_controller.go:163-191 | the write is the machine's WriteSecret |
| ExportServer.Server.WithReport | internal/controller/omnikubeconfigexport_controller.go:645-697 | set field by field, the status is the one that StatusSays describes |
| ExportServer.Server.UpdateStatus | internal/controller/omnikubeconfigexport_controller.go:637-705 | the field-by-field status update is the machine's Commit |
| ExportServer.Server.ReconcileDelete | internal/controller/omnikubeconfigexport_controller.go:213-233 | deletion is a run of the machine's Remove and Release |
| ExportServer.Server.Inspect | internal/controller/omnikubeconfigexport_controller.go:134-162 | lookup and reuse decision are the machine's Lookup, and a reuse is reported exactly if the Secret is current and not proved stale |
| ExportServer.Server.Rotate | internal/controller/omnikubeconfigexport_controller.go:163-210 | generate, write and commit are a run of the machine; on success the Secret written is due at the time the pass asks to be woken |
| ExportServer.Server.ExportPass | internal/controller/omnikubeconfigexport_controller.go:123-210 | cleanup, lookup, reuse or rotation and report are a run of the machine along the path the Secret calls for |
| ExportServer.Server.Reconcile | internal/controller/omnikubeconfigexport_controller.go:78-211 | a whole pass is a run of the machine from idle to idle that touches no other export; under deletion only the Delete policy removes a Secret and the export goes with its release; a live export is exported if and only if its spec is accepted, its cluster and connection are there and its calls go through; one that exports is woken when its Secret is due, and is truthful if and only if the recorded target was settled or the spec target held what the pass obtains |
| SecretSync.DesiredIsOwned | internal/secretsync/secretsync.go:181-249 | whatever labels and annotations the user asks for, the desired Secret is recognised as owned |
| SecretSync.HashPinsContent | internal/secretsync/secretsync.go:201-220 | two desired Secrets with one recorded hash have one type and one data map |
| SecretSync.DesiredSecretIs | internal/secretsync/secretsync.go:181-199 | a Secret is the desired one if and only if it is a faithful copy, field by field |
| SecretSync.OwnershipIsMarked | internal/secretsync/secretsync.go:240-249 | ownership is by a mark that is present: the uid label, or for an item without uid the name annotation |
| SecretSync.CopyByteMap | internal/secretsync/secretsync.go:273-284 | the copy equals the original |
| SecretSync.Workload.EnsureNamespace | internal/secretsync/secretsync.go:251-267 | on success the namespace exists, and no other namespace changes |
| SecretSync.Workload.Sync | internal/secretsync/secretsync.go:88-137 | from any prior state the target becomes a faithful copy: the source's data, the type set or else the source's, every user label and annotation outside the operator's names, the operator's marks and the hash of that very type and data; nothing else changes, a write is made precisely if it was not that already, and a failed Sync changes no Secret |
| SecretSync.Workload.Delete | internal/secretsync/secretsync.go:140-163 | the target goes exactly if this item owns it, with one write exactly then |
| SecretSyncSafety.InvAlways | internal/controller/omnisecretsync_controller.go:63-172 | on every run of remembering steps, every owned Secret is where the item or the pass in progress still remembers it |
| SecretSyncSafety.LeavesNothingBehind | internal/controller/omnisecretsync_controller.go:63-172 | at most one owned Secret exists at any time; between passes it is the recorded target; none is left once the item has vanished |
| SecretSyncSafety.GuardIsExact | internal/controller/omnisecretsync_controller.go:389-405 | a status commit keeps the invariant if and only if no owned Secret is at stake or it does not overwrite the target that holds it |
| SecretSyncSafety.DeleteFailedForgets | internal/controller/omnisecretsync_controller.go:107-119 | for every two admitted Delete specs with different targets, a run from an initial world in which the DeleteFailed report forgets the old target and deletion leaves its Secret behind |
| SecretSyncReports.AlwaysEntitled | internal/controller/omnisecretsync_controller.go:63-172 | in every reachable state a pass that cleans or syncs works on a held, live, valid item, and one that removes on a held item under deletion that is not Orphan |
| SecretSyncReports.SecretGoesOnlyByPolicy | internal/controller/omnisecretsync_controller.go:138-172 | over any run the operator removes only a Secret it owns: the recorded one of a live Delete item that moved on, or the deletion target of an item under deletion that is not Orphan |
| SecretSyncReports.SecretWrittenIsCopy | internal/secretsync/secretsync.go:88-137 | over any run it writes only faithful copies of the source, at the target of a live, valid item |
| SecretSyncReports.ItemGoesOnlyIfDeleted | internal/controller/omnisecretsync_controller.go:187-202 | an item goes only by its user's deletion or, held, by the release of an item under deletion |
| SecretSyncReports.StatusSays | internal/controller/omnisecretsync_controller.go:380-459 | in any run the status a pass commits is that of the step that ended it: verdicts, reasons, generation, whether the cluster exists, and the target and hash of the Secret delivered, or the stored spec's target and the old hash |
| SecretSyncReports.SyncedIsEarned | internal/controller/omnisecretsync_controller.go:120-136 | in every reachable state Synced=True means an earlier step delivered to the recorded target a faithful copy with the recorded hash, with no report since |
| SecretSyncServer.Server.UpdateStatus | internal/controller/omnisecretsync_controller.go:380-440 | the field-by-field status update is the machine's Commit |
| SecretSyncServer.Server.DeletePreviousTargetSecret | internal/controller/omnisecretsync_controller.go:294-308 | the recorded Secret goes exactly when a retarget under Delete left it and this item owns it; a failure changes nothing |
| SecretSyncServer.Server.ReconcileDelete | internal/controller/omnisecretsync_controller.go:138-172 | deletion is a run of the machine that touches at most the deletion target, finishes if its calls succeed, and then leaves no Secret of its own there |
| SecretSyncServer.Server.RemoveFinalizer | internal/controller/omnisecretsync_controller.go:187-202 | finalizer removal is the machine's Release, and an item under deletion is gone exactly if it succeeds |
| SecretSyncServer.Server.CleanAndSync | internal/controller/omnisecretsync_controller.go:107-136 | a pass that finishes has a faithful copy at the spec target, and finishes if its calls succeed; nothing but the old and the new target is touched |
| SecretSyncServer.Server.Reconcile | internal/controller/omnisecretsync_controller.go:63-136 | a whole pass is a run of the machine from idle to idle; under deletion an Orphan item touches no Secret and any other at most its deletion target; a live item gets its finalizer first, reports an invalid spec or missing dependency with its reason and touches nothing, and otherwise delivers a faithful copy if its calls succeed |
| Lifecycle.CleanupStep | internal/controller/omnicluster_controller.go:57-81 | every step keeps: whatever the owner has put there, the owner still exists, finalized, and can still name it |
| Lifecycle.VanishedLeavesNothingRemote | internal/controller/omnicluster_controller.go:190-231 | on every run with fixed remote name, dependency and non-orphan policy, a vanished cluster or Helm release has left nothing remote, wherever the deletion mark fell |
| Lifecycle.ScanStep | internal/controller/omniconnection_controller.go:105-128 | every step without a late reference keeps: between scan and release the connection is under deletion and unreferenced |
| Lifecycle.ConnectionOutlivesUsers | internal/controller/omniconnection_controller.go:105-166 | a finalized connection stays, finalized, for as long as a cluster goes on referencing it |
| Lifecycle.ClusterFinalizerFindsConnection | internal/controller/omnicluster_controller.go:196-221 | a cluster's deletion always finds the connection it needs |
| Lifecycle.CleanupGuardIsExact | internal/controller/omnicluster_controller.go:206-208 | once something remote exists, an edit keeps it cleanable if and only if it keeps name, dependency and policy |
| Lifecycle.ScanGuardIsExact | internal/controller/omniconnection_controller.go:110-127 | between scan and release, exactly the steps that bring no new reference are safe |
| Lifecycle.LateReferenceLosesConnection | internal/controller/omniconnection_controller.go:105-128 | a run in which a connection goes while a cluster references it |
| Lifecycle.RenameLeavesRemoteBehind | internal/controller/omnihelmrelease_controller.go:125-154 | a run in which a renamed Helm release vanishes and leaves the old release |
| LifecycleFrames.PassIsEntitled | internal/controller/omnicluster_controller.go:190-231 | over any run a busy worker is in a pass that began on an object entitling it: held, live and not suspended to sync, with its dependency resolved; held, under deletion and not Orphan to delete; Orphan, or deleted remotely in this very pass, to release |
| LifecycleFrames.RemoteGoesOnlyByOwner | internal/controller/omnicluster_controller.go:196-221 | over any run something remote goes only by a pass that began on a held, non-Orphan object under deletion that names it and whose connection or kubeconfig is there |
| LifecycleFrames.RemoteComesOnlyByOwner | internal/controller/omnihelmrelease_controller.go:98-123 | over any run it comes only by its owner's sync in a pass that began on a held, live, not suspended object that names it and has resolved its dependency |
| LifecycleFrames.LeftInPlace | internal/controller/omnihelmrelease_controller.go:125-132 | a pass that begins on an Orphan owner under deletion, a suspended one or one not held makes no remote call, whatever users do meanwhile |
| LifecycleFrames.OwnerAfter | internal/controller/omnihelmrelease_controller.go:156-184 | in one step the duty and the finalizers of others change only by the user, the operator's only by a pass that finds none or by a release, which leaves none |
| LifecycleFrames.OwnerGoes | internal/controller/omnicluster_controller.go:223-231 | an owner vanishes if and only if it is under deletion with no finalizer left: by its mark, an edit, or a release that finds only the operator's |
| LifecycleFrames.ReleaseIsEarned | internal/controller/omnicluster_controller.go:190-231 | over any run a release belongs to a pass that found the owner Orphan, or has had its remote thing deleted |
| LifecycleFrames.ConnectionChanges | internal/controller/omniconnection_controller.go:52-73 | in one step a connection's foreign finalizers change only by its user, the operator's only by a pass that finds none or by letting go |
| LifecycleFrames.ConnectionGoes | internal/controller/omniconnection_controller.go:148-166 | a connection vanishes if and only if it is under deletion with no finalizer left |
| LifecycleFrames.LetGoIsEarned | internal/controller/omniconnection_controller.go:105-128 | over any run a connection is let go only in a pass that found it held, under deletion, and then used by no cluster |
| LifecycleServer.Server.ReleaseOwner | internal/controller/omnihelmrelease_controller.go:169-184 | finalizer removal is the machine's Release; the operator's finalizers go, those of others stay, and with none left the object is gone |
| LifecycleServer.Server.ReconcileDelete | internal/controller/omnihelmrelease_controller.go:125-154 | deletion is a run of the machine: an object not held is left alone, an Orphan one is released with everything remote in place, and any other is released exactly if what it names was reached and deleted, and only that is gone |
| LifecycleServer.Server.Sync | internal/controller/omnihelmrelease_controller.go:98-123 | resolving and installing is a run of the machine that adds exactly the one remote thing the duty names, if the dependency resolves and the call takes effect |
| LifecycleServer.Server.Reconcile | internal/controller/omnihelmrelease_controller.go:62-123 | a whole pass is a run of the machine from idle to idle; it touches no other object and no connection; a held Orphan or a suspended object keeps everything remote, the first is gone if its release succeeds and only honoured finalizers were left; a live one gets its finalizer first and then its one remote thing |
| LifecycleServer.Server.ReferencingClusters | internal/controller/omniconnection_controller.go:130-146 | exactly the clusters that name the connection |
| LifecycleServer.Server.ReconcileConnectionDelete | internal/controller/omniconnection_controller.go:105-128 | scan and release are a run of the machine; the connection loses exactly the operator's finalizers, if no cluster uses it and the write succeeds, and with none left it is gone |
| LifecycleServer.Server.ReconcileConnection | internal/controller/omniconnection_controller.go:52-73 | the same for the whole pass, which adds a missing finalizer to a live connection and touches no other connection, no object and nothing remote |
| ClusterStatus.ReadyOnlyIfSynced | internal/controller/omnicluster_controller.go:85-178 | of all reports only a synced template whose status was read makes a cluster ready, and every report leaves the conditions coherent |
| ClusterStatus.InvAlways | internal/controller/omnicluster_controller.go:57-188 | in every reachable state the status is coherent, not ahead of the object, and the worker's copy is not newer than the store |
| ClusterStatus.ReadyIsCoherent | internal/controller/omnicluster_controller.go:159-178 | in every reachable state Ready=True implies Validated=True and Synced=True at the observed generation, and at the stored generation the described template came from the stored spec |
| ClusterStatus.ObservedGenerationMonotone | internal/controller/omnicluster_controller.go:294-327 | the observed generation never goes back |
| ClusterStatus.ReadyIsEarned | internal/controller/omnicluster_controller.go:137-178 | the template a ready status describes was accepted by Omni in an earlier step, with no status write since the one that said so |
| ClusterReports.PassKnows | internal/controller/omnicluster_controller.go:57-231 | over any run a busy worker is in a pass over the object it read, and has taken the steps that led it where it is |
| ClusterReports.StatusSays | internal/controller/omnicluster_controller.go:85-178 | in any run what a pass commits is the verdict of the step that ended it: Validated, Synced and Ready with their reasons at the generation read, the endpoint it connected to, the template it rendered from the spec read, the name in Omni; every other condition and field stays as it was |
| ClusterReports.OmniChangesOnlyBy | internal/controller/omnicluster_controller.go:137-221 | over any run Omni's copy changes only by a pass over a held, live, not suspended cluster that hands over the valid template of the spec it read, or by a pass over a held, non-Orphan cluster under deletion with its connection at hand |
| ClusterReports.ClusterGoesOnlyIfDeleted | internal/controller/omnicluster_controller.go:190-231 | over any run the object goes only by its user's deletion, and a held one only by the release of a pass that found it Orphan or has deleted it remotely |
| ClusterServer.SyncInterval | internal/controller/omnicluster_controller.go:329-335 | the interval is the requested one if that is positive, otherwise five minutes |
| ClusterServer.Server.UpdateStatus | internal/controller/omnicluster_controller.go:294-327 | upserting conditions one by one is the machine's Commit |
| ClusterServer.Server.ReconcileDelete | internal/controller/omnicluster_controller.go:190-231 | Omni's copy goes exactly if the connection is there and the deletion takes effect; the object goes exactly if that is confirmed and the release succeeds, and is otherwise kept with a DeleteFailed report |
| ClusterServer.Server.Proceed | internal/controller/omnicluster_controller.go:95-187 | connection read, rendering, validation, sync and report are a run of the machine; Omni gets the template exactly if it is valid and the sync takes effect, and the report is that of the step that ended the pass |
| ClusterServer.Server.Reconcile | internal/controller/omnicluster_controller.go:57-188 | a whole pass is a run of the machine; an Orphan or suspended cluster leaves Omni's copy alone, one not held gets its finalizer and no more; every other way out leaves the report of the step that ended the pass; one that schedules the next waits the sync interval and, if the cluster is ready, Omni holds the template the status describes, rendered from the stored spec |
| Retry.NoEditLost | internal/controller/child_status.go:57-126 | any view of the object that the mutation leaves alone ends as if the other writers had written alone |
| Retry.Store.Attempt | internal/controller/omniconnection_controller.go:151-165 | one attempt commits the mutation of what is stored at that instant, or leaves the store to the other writers; it conflicts only if one of them wrote between read and write |
| Retry.Store.RetryOnConflict | internal/controller/omnicluster_controller.go:303-316 | at most one write is ours, it stores the mutation of what the others' writes alone had left, all other writes stay in order, the attempts run out only if others wrote within every one, and an undisturbed first attempt succeeds |
| Retry.UpdateStatus | internal/controller/omniconnection_controller.go:181-194 | a status writer loses no concurrent edit of spec, finalizers or deletion mark, and what it writes is the object the others left with the report on it as its status |
| Retry.RemoveFinalizers | internal/controller/omniconnection_controller.go:148-166 | spec, generation, deletion mark, status and the finalizers of others are those of the other writes alone; a write of ours leaves neither operator finalizer; the object is gone by it if and only if it was under deletion and held by nobody else |
| ChildStatus.ReportSettles | internal/controller/child_status.go:57-126 | a child whose status was just written draws no second write |
| ChildStatus.UpdateChildStatus | internal/controller/child_status.go:57-126 | the three child status writers lose no concurrent edit, write at most once, touch no condition but Accepted, and skip only a status that already says what they would write |
| ChildStatus.AcceptedTruthfulIff | internal/controller/child_status.go:36-126 | in any run, the Accepted a pass writes is true if and only if the cluster it looked up existed at the lookup exactly as the cluster named at the write exists at the write |
| ChildStatus.AcceptedTruthfulIfKept | internal/controller/child_status.go:36-126 | of a child that keeps its reference it is true if and only if its cluster neither came nor went in between |
| ChildStatus.QuietIsTruthful | internal/controller/omnimachine_controller.go:41-68 | in every reachable state with no pass under way or due, Accepted and its reason say the truth about the cluster the child names, and the status names that cluster and the effective worker-set name or machine id |
| ChildStatus.PassSettles | internal/controller/omnimachine_controller.go:41-68 | an undisturbed pass leaves a true status, no further pass due, and nothing but the status changed |
| ChildStatus.MovedChildMisreports | internal/controller/child_status.go:103-126 | a run in which a child moved between lookup and write is accepted by a cluster that does not exist |
| Sorting.Sort | internal/controller/child_watch.go:94-100 | the result is a sorted permutation |
| Sorting.StringLeIff | internal/controller/child_watch.go:94-100 | the order is the dictionary order: a prefix, or smaller at the first difference |
| Sorting.UniqueIffNoClash | internal/omnitemplate/builder.go:166-185 | a sorted order is unique if and only if no two different elements share a sort key |
| Template.Collect | internal/controller/omnicluster_controller.go:233-279 | the append loop selects, in order, exactly the items that satisfy the test |
| Template.ValidateManifestNames | internal/omnitemplate/builder.go:282-300 | accepts exactly pairwise distinct names |
| Template.AppendWorkers | internal/omnitemplate/builder.go:166-228 | one document and one reference per worker set in order, or the first that takes the reserved name |
| Template.AppendMachines | internal/omnitemplate/builder.go:166-228 | one document and one reference per machine in order |
| Template.Render | internal/omnitemplate/builder.go:166-228 | for some sorted order of the given worker sets and machines: each document with its own effective name and body in that order after the cluster's and the control plane's, the reference lists naming the same objects, the hash of just these documents; or a duplicate manifest, or a worker set that takes the reserved name, exactly if there is one |
| Template.RenderListed | internal/controller/omnicluster_controller.go:233-279 | the same for exactly the resources that name the cluster, each as often as it is listed, in order of effective name; refused with their number unless exactly one control plane does |
| Template.RenderingIsCanonical | internal/omnitemplate/builder.go:166-228 | with distinct effective names and ids, any permutation of the lists gives the same documents, references, hash or error |
| Template.CanonicalIffNoClash | internal/omnitemplate/builder.go:470-484 | the whole result, with its reference lists, is independent of the order the sort picks if and only if no two names or ids clash |
| Template.TemplateIffClashesAgree | internal/omnitemplate/builder.go:166-228 | documents and hash are independent of the order the sort picks if and only if elements that clash render to the same document |
| Template.EachDocumentOnce | internal/omnitemplate/builder.go:166-228 | after the Cluster and ControlPlane documents, each selected document appears exactly once |
| Watches.ChangeWakesCluster | internal/controller/omnicluster_controller.go:347-379 | an event that changes a cluster's selected template inputs enqueues that cluster |
| Watches.OnlyReferencedClustersWake | internal/controller/omnicluster_controller.go:358-379 | an event enqueues a cluster if and only if it is in the child's namespace and referenced by it before or after, and the child comes, goes, is marked or has another generation |
| Watches.StatusWakesNobody | internal/controller/predicates.go:24-47 | an update of the status alone enqueues nobody |
| Watches.StaleClusterWasWoken | internal/controller/predicates.go:24-47 | over any history, a cluster whose inputs differ from those it last read has been enqueued since |
| Watches.Requests | internal/controller/child_watch.go:30-92 | the append loop returns, in list order, the requests for the items that satisfy the test |
| Watches.RequestsInOrder | internal/controller/child_watch.go:30-92 | the requests of two lists together are those of the first, then those of the second; of one item, its key if it satisfies the test |
| Watches.SecretSyncRequestsForSecret | internal/controller/omnisecretsync_controller.go:477-491 | a permutation of the syncs whose source or kubeconfig reference is the Secret, in order of namespace/name |
| Watches.RequestsForCluster | internal/controller/child_watch.go:30-100 | a permutation of the items that name the cluster, in order of namespace/name |
| Watches.ExportRequestsForConnection | internal/controller/omnikubeconfigexport_controller.go:733-762 | in list order, exactly the exports whose cluster names the connection |
| Watches.ReferencingClusterNames | internal/controller/omniconnection_controller.go:130-146 | a sorted permutation of the names of exactly the clusters that name the connection |
| Watches.OwnerAnnotationsNameAuthor | internal/kubeconfigexport/kubeconfigexport.go:112-121 | in every reachable state the owner annotations of a Secret name the export that rewrote it last |
| Watches.SecretEventWakesAuthor | internal/controller/omnikubeconfigexport_controller.go:764-779 | in any run, a change to a Secret wakes exactly the export that rewrote it last if and only if the owner annotation is there, and the namespace annotation too unless both share a namespace; without the first nobody, without the second that name in the Secret's namespace |
| Admission.KubeconfigExportSpecError | internal/controller/omnikubeconfigexport_controller.go:576-620 | no error exactly for an accepted spec, and an error names a field the webhook names too |
| Admission.GroupErrors | internal/webhook/v1alpha1/validation.go:126-141 | exactly the blank, forbidden and duplicate groups are named, both partners of every duplicate |
| Admission.ValidateKubeconfigExport | internal/webhook/v1alpha1/validation.go:100-170 | exactly the faults of the spec are reported, and there are none if and only if the reconciler accepts the spec, the trimmed groups are pairwise distinct and a set context namespace is not blank |
| Admission.SecretSyncSpecError | internal/controller/omnisecretsync_controller.go:340-369 | no error exactly for an accepted spec, and an error names a field the webhook names too |
| Admission.ValidateSecretSync | internal/webhook/v1alpha1/validation.go:228-269 | exactly the faults are reported, and there are none if and only if the reconciler accepts the spec |
| Admission.ValidateSecretSyncUpdate | internal/webhook/v1alpha1/omnisecretsync_webhook.go:47-60 | an update passes exactly if the new spec is valid and keeps the kubeconfig reference: the edits the secret-sync machine allows |
| Admission.ValidateMachineIDs | internal/webhook/v1alpha1/validation.go:362-378 | exactly the malformed ids and both partners of every duplicate are named |
| Admission.ExportAcceptedIff | internal/controller/omnikubeconfigexport_controller.go:576-620 | the reconciler accepts an export exactly if its names and groups hold more than white space, no group is system:masters once trimmed unless that is allowed, renewBefore lies strictly within ttl, and the policy is Delete or Orphan |
| Admission.SyncAcceptedIff | internal/controller/omnisecretsync_controller.go:340-369 | the reconciler accepts a secret sync exactly if its names, and its key and type when set, hold more than white space and the policy is Delete or Orphan |
| TrimmedText.BlankMeansOnlySpace | internal/webhook/v1alpha1/validation.go:104-121 | trimming leaves nothing exactly if the text is all white space |
| TrimmedText.TrimSpaceIs | internal/webhook/v1alpha1/validation.go:126-141 | trimming drops the white space at both ends and nothing else |

## Left out

- The Omni client, Helm actions, workload clientsets, kubeconfig parsing and the live kubeconfig check are foreign calls: a step parameter says what each returns and, where it changes something, whether it is done, refused, or failed after taking effect. A status commit or finalizer removal whose reply is lost is the same step as one that is acknowledged, since the pass ends either way.
- YAML, JSON and SHA-256: injective constructors on the document or payload. RFC 3339 text is a stamp of a whole second.
- Informer staleness and leader election: reads see the store, and there is one worker per object.
- Go's nil and empty slices and maps are identified; integer widths and duration overflow are not modelled.
- Condition messages, transition times, `LastSyncTime`-style fields, output trimming, warnings, and URL and UUID parsing (UUID validity is a parameter): formatting or library calls.
- Connection pings, Helm and connection status contents, `validateHelmRelease`, `validatePatches`, `validateManifests` and the remaining webhook validators: no claim harder than those made for the modelled ones.
- internal/helmchart and the working directories of internal/helmrelease: file handling.
- Name reuse: a deleted OmniSecretSync or OmniCluster is not created again in its own machine; exports, children, Helm releases and connections may be.
- ExportSafety.DeletionSafety: assumes that nobody but the operator writes the owner label.
- ExportSafety.CacheSoundness: assumes that nobody but the operator writes the cache annotations, while Secret data may be edited freely.
- ExportRate.RotationRate: assumes a calm run, in which nobody edits the export, renames its cluster or disturbs its Secret, Omni issues no empty kubeconfig and the live check calls nothing stale (MarkedIsCurrentIff and FreshIsReusedIff say what a disturbed Secret is worth), and a positive gap, which BoundedIffGap shows to be the exact condition.
- ExportTruth.PassTruthful: assumes that nobody edits the spec or touches the two Secrets during the pass; EditedPassTruthful and TruthAtCommit are without the first and without both.
- ExportCleanup.ExportLeavesNothingBehind: assumes the Delete policy, uids that are not reused, and steps that do not move the looked-up place away from a labelled Secret, which GuardIsExact shows to be the exact condition; FixedTargetLeavesNothingBehind needs it of users only.
- SecretSyncSafety.LeavesNothingBehind: assumes the Delete policy and commits that do not overwrite the target of an owned Secret; for commits GuardIsExact shows this to be the exact condition.
- Lifecycle.VanishedLeavesNothingRemote: assumes that users keep the owner's remote name, dependency and non-orphan policy, which CleanupGuardIsExact shows to be the exact condition on edits.
- Lifecycle.ConnectionOutlivesUsers: assumes that no cluster newly references a connection under deletion, which ScanGuardIsExact shows to be the exact condition between scan and release.
- Retry.RemoveFinalizers: an object deleted between read and write gives an error, as the API server answers NotFound; deletion and re-creation within one attempt is a conflict.
- The order and wording of webhook errors: which errors are reported is exact, the order is only that of the code.
