# Verification model of cloud-ingress-operator

The operator keeps two kinds of cluster state in line with two custom resources: the
IngressControllers and the default API endpoint described by a PublishingStrategy, and the admin API
Service with its DNS record described by an APIScheme. This project models its reconcile loops and
the cloud protocols they drive as state machines over a small Kubernetes, Route 53, ELB and Google
Cloud API, and proves what every pass and every run of passes keeps. `dafny verify dfyconfig.toml`
checks everything.

How the model is built:

- **Failures.** Every API state carries `faults`, one flag per future call; a call whose flag is set
  fails and has no effect, and past the end of the list calls succeed. A statement about all `faults`
  is a statement about all patterns of failing calls.
- **Order.** Go ranges over maps in arbitrary order. `Basics.RangeOrder` returns any listing of the
  keys, and a statement about all `Choices` covers every one.
- **Panics** of the modelled steps (a nil dereference, slicing at index -1, slicing past a length, a
  cloud client that cannot be made) are outcomes of the model, not preconditions. A DNS or scope call
  into the cloud may itself panic; whether it does is part of the cloud's answer.
- **Form.** The controllers and cloud clients are classes whose methods call the API, assign fields
  and loop as the code does. Each is proved equal to a function of the state it started in
  (`Publishing`, `ApiScheme`, and the functions beside each cloud client), and the theorems are about
  those functions. `OwnedNlbs` has no such functions: its methods are specified outright.
- **Meaning.** What an operation computes is also stated in the words of its inputs, with the literal
  names and values and without the functions that compute them: `EntryFields` for the objects,
  `PublishingEntry`, `PublishingDone`, `ApiSchemeAnswers` and `GcpSwitches` for how operations end.
- **API.** Delete removes an object without finalizers and marks any other; an update or patch of a
  deleting object down to no finalizers removes it; Create fails if the name exists. With no
  concurrent writer a JSON merge patch (section 2 of RFC 7396) yields the modified object.

| file | content |
|---|---|
| `Basics.dfy` | options, failing calls, string helpers, map ranges |
| `CloudClients.dfy` | building the cloud client of a platform |
| `ClusterVersion.dfy` | the version gate on the text of CLUSTER_VERSION |
| `FinalizerLists.dfy` | in-place `Remove` on a slice's backing array |
| `IngressControllers.dfy`, `KubeApi.dfy` | objects, the generated spec, validators, the Kubernetes API |
| `EntryFields.dfy` | what an entry asks of its object, field by field |
| `Publishing.dfy`, `PublishingReconciler.dfy` | one pass of the PublishingStrategy controller, as a function and as methods |
| `PublishingFrame.dfy` | what a pass may touch, and what a clean pass has established |
| `PublishingConvergence.dfy` | bounded requeues over a quiet cluster, whatever calls fail |
| `PublishingNotes.dfy` | which published objects get annotated |
| `PublishingPanics.dfy`, `PublishingDone.dfy` | when a pass panics, and when it ends cleanly |
| `PublishingEntry.dfy`, `PublishingPatches.dfy` | what a pass does to the object of one entry |
| `PublishingSecondary.dfy` | losing the object of a secondary entry |
| `PublishingInterleaving.dfy` | this controller interleaved with the cluster ingress operator |
| `PublishingHandshake.dfy` | replacing `default` together with the cluster ingress operator |
| `PublishingDisown.dfy` | handing `default` back |
| `ConditionHistory.dfy` | the APIScheme condition history |
| `ApiScheme.dfy`, `ApiSchemeReconciler.dfy`, `ApiSchemeTheorems.dfy`, `ApiSchemeAnswers.dfy` | the APIScheme controller |
| `Route53.dfy`, `OwnedNlbs.dfy` | the AWS side |
| `GcpDns.dfy`, `GcpStaticIp.dfy`, `GcpSwitches.dfy` | the GCP side |

Where the code and its comments, documentation or evident intent disagree, the model follows the
code; a lemma says exactly when the intent is met, and another gives an input on which it is not:

- A comment at `controllers/publishingstrategy/publishingstrategy_controller.go:278-280` says
  remaining ingresses are deleted as usual when `default` is disowned. The code returns before the
  clean-up (`PublishingFrame.DonePassCleansUp`, `PublishingFrame.CleanPassLeavesRouter`).
- The load-balancer-type path deletes `default` without the finalizer the static path adds first
  (`PublishingHandshake.TypeChangeNeedsTheFinalizer`, `PublishingHandshake.ClassicToNlbLosesDefault`).
- A comment at `controllers/publishingstrategy/publishingstrategy_controller.go:155-157` says an object
  deleted for an immutable field is created by the next reconcile, and the message at `:432` that
  second ingress controllers can still be updated. Once the object of a secondary entry is gone every
  later pass stops before its loop (`PublishingSecondary.UpdateSurvivesIff`,
  `PublishingSecondary.UpdateIsLost`).
- The annotation step stops at the first object already annotated, so the others get nothing
  (`PublishingNotes.AnnotatesAllIff`, `PublishingNotes.SecondGetsNothing`).
- `Remove` can leave an element behind or panic when the list holds it twice
  (`FinalizerLists.RemoveRemovesAll`, `FinalizerLists.RepeatsGoWrong`).
- The AWS removal closure starts from one snapshot of the machine list each time, so a second removal
  puts the first load balancer back on a machine (`OwnedNlbs.MachineIsCleanIff`,
  `OwnedNlbs.SecondRemovalUndoesTheFirst`).
- On GCP a switch to public that finds the forwarding rule returns at once, even when the record was
  never moved (`GcpStaticIp.PublicOkMeans`, `GcpStaticIp.FailedUpdateIsNeverRepaired`); a switch to
  private that finds the record internal keeps the static address (`GcpStaticIp.PrivateOkMeans`,
  `GcpStaticIp.AddressIsKept`); and one that does not find the internal rule puts an empty address
  into the record, if the DNS service takes one, and else fails with the external rule gone
  (`GcpStaticIp.PrivateBlanksIff`, `GcpStaticIp.RefusedBlank`, `GcpStaticIp.BlankRecord`).
- An APIScheme deleted while its Service is absent leaves its DNS record behind, as a comment at
  `controllers/apischeme/apischeme_controller.go:149-158` admits. So does one whose DNS name was
  changed, because only the current name is deleted; and on AWS one whose record still points at an
  earlier load balancer, because the delete takes an invalid change for a missing record
  (`pkg/cloudclient/aws/private.go:604-619`) (`ApiSchemeTheorems.PassKeepsGuard`,
  `ApiSchemeTheorems.OrphanedRecord`, `ApiSchemeTheorems.RenamedRecord`,
  `ApiSchemeTheorems.StaleRecord`, `Route53.NilRemovalLeaves`).

## Model

The main theorems are marked **main**. The other rows are the steps they rest on, and the methods in
the code's own form with the function or property each is proved to meet.

| member | source | states |
|---|---|---|
| ClusterVersion.GateIsNumeric | pkg/utils/clusterversion.go:71-95 | **main**: for a cluster version `a.b` followed by nothing or a non-digit, the gate for `x.y` holds iff both segments fit 64 bits and (a, b) is at least (x, y) as numbers |
| ClusterVersion.GateIsMonotone | pkg/utils/clusterversion.go:71-95 | whatever CLUSTER_VERSION holds, passing a gate implies passing every lower gate |
| ClusterVersion.GatesNest | pkg/utils/clusterversion.go:71-95 | the 4.13 gate implies 4.11 implies 4.10, for every environment value |
| ClusterVersion.GatesMean | pkg/utils/clusterversion.go:71-95 | for a version `a.b` and a tail, the gates hold iff (a, b) is at least (4, 10), (4, 11) and (4, 13); without a version none does |
| FinalizerLists.RemoveInPlace | pkg/controllerutils/utils.go:4-11 | the loop that shifts the backing array while ranging over it returns exactly what the loop function says, or panics when it does |
| FinalizerLists.Contains | pkg/controllerutils/utils.go:14-21 | true iff the list holds the string |
| FinalizerLists.RemoveIsSweep | pkg/controllerutils/utils.go:4-11 | the in-place loop equals a one-pass sweep that skips the element after each removal and rereads the stale last slot |
| FinalizerLists.RemoveRemovesAll | pkg/controllerutils/utils.go:4-11 | **main**: every occurrence is removed, in order and without panic, iff no two are adjacent and a final one is the only one |
| FinalizerLists.RemovePanicsIff | pkg/controllerutils/utils.go:4-11 | Remove panics iff a final occurrence is not the only one |
| FinalizerLists.RemoveOnDistinct | pkg/controllerutils/utils.go:4-11 | on a list without duplicates Remove is exact |
| FinalizerLists.RepeatsGoWrong | pkg/controllerutils/utils.go:4-11 | removing `s` from `[s, s]` panics, and from `[s, s, x]` leaves `[s, x]` |
| IngressControllers.PatchRepairs | controllers/publishingstrategy/publishingstrategy_controller.go:518-564 | copying the field a failed check named lowers the mismatch count and disturbs neither the static nor the load-balancer-type check |
| IngressControllers.GeneratedPassesAllChecks | controllers/publishingstrategy/publishingstrategy_controller.go:306-360 | the generated spec passes the three validators on every platform and version |
| EntryFields.NamesIff | controllers/publishingstrategy/publishingstrategy_controller.go:299-304 | the object of a secondary entry is named by the text before the first dot of its DNS name, the default one `default` |
| EntryFields.BaseDomainText | pkg/utils/infrastructure.go:45-57 | the base domain is the host of the API server URL without its first four characters |
| EntryFields.CreatedFields | controllers/publishingstrategy/publishingstrategy_controller.go:306-360 | the created object field by field: owner, certificate, placement and toleration, domain, scope, type and idle timeout by platform and version, selector, no replicas |
| EntryFields.TypeMeans | controllers/publishingstrategy/publishingstrategy_controller.go:452-482 | on AWS the type is wrong iff the parameters name another than the entry, where empty means Classic; without parameters iff the entry asks for an NLB; without an endpoint always |
| EntryFields.StaticMeans | controllers/publishingstrategy/publishingstrategy_controller.go:372-420 | the immutable fields are the domain and, before 4.10, the scope |
| EntryFields.PatchMeans | controllers/publishingstrategy/publishingstrategy_controller.go:518-564 | the first of selector, certificate, placement and endpoint that differs is named; from 4.10 the scope counts, from 4.11 the parameters |
| PublishingReconciler.Reconciler.AddFinalizer | controllers/publishingstrategy/finalizer.go:13-24 | appends the finalizer and writes the object; success iff the write is accepted |
| PublishingReconciler.Reconciler.RemoveFinalizer | controllers/publishingstrategy/finalizer.go:27-38 | removes the finalizer in place and writes the object, or panics with the API untouched |
| PublishingReconciler.Reconciler.EnsureNoNewSecondIngressCreated | controllers/publishingstrategy/publishingstrategy_controller.go:422-438 | the loop stops at the first non-default entry that is not owned, or panics at one without a dot |
| PublishingReconciler.Reconciler.EnsureIngressController | controllers/publishingstrategy/publishingstrategy_controller.go:810-856 | waits for the cluster finalizer, drops its own, deletes and recreates, with every error exit |
| PublishingReconciler.Reconciler.EnsureAwsLoadBalancerType | controllers/publishingstrategy/publishingstrategy_controller.go:440-450 | deletes on a type mismatch and requeues whatever the delete answers |
| PublishingReconciler.Reconciler.EnsureStaticSpec | controllers/publishingstrategy/publishingstrategy_controller.go:603-646 | deletes on a static mismatch; for `default` only if the status differs too, and after adding the finalizer |
| PublishingReconciler.Reconciler.EnsurePatchableSpec | controllers/publishingstrategy/publishingstrategy_controller.go:649-703 | patches the first differing field; for `default` a selector excused by the status ends the checks |
| PublishingReconciler.Reconciler.VisitEntry | controllers/publishingstrategy/publishingstrategy_controller.go:162-266 | one turn of the loop, from the name to the patchable checks |
| PublishingReconciler.Reconciler.EnsureAnnotationsDefined | controllers/publishingstrategy/publishingstrategy_controller.go:738-773 | annotates published objects in some order up to the first already annotated |
| PublishingReconciler.Reconciler.EnsureDefaultOwnedByClusterIngressOperator | controllers/publishingstrategy/publishingstrategy_controller.go:708-736 | replaces annotations and finalizers of `default` |
| PublishingReconciler.Reconciler.DeleteUnpublishedIngressControllers | controllers/publishingstrategy/publishingstrategy_controller.go:583-600 | deletes the owned names not seen, in some order, up to the first failure |
| PublishingReconciler.Reconciler.EnsureAliasScope | controllers/publishingstrategy/publishingstrategy_controller.go:776-807 | reads the platform, makes a client call by call, then takes the answer of the switch; where each failure ends the pass and where it panics |
| CloudClients.BuildFor | pkg/cloudclient/cloudclient.go:48-54 | the calls that make a client, in order, up to the first failure; no client for a platform that is not registered |
| CloudClients.ClientIff | pkg/cloudclient/cloudclient.go:48-54 | a client is made iff the platform is AWS and two calls succeed, or GCP and five, and what they read can be used; otherwise the code panics |
| PublishingReconciler.Reconciler.VisitEntries | controllers/publishingstrategy/publishingstrategy_controller.go:162-266 | the loop over the entries stops at the first visit that does not continue |
| PublishingReconciler.Reconciler.ReconcileOnce | controllers/publishingstrategy/publishingstrategy_controller.go:87-296 | one whole pass, for any answer of the cloud, leaves the API state and outcome of `Publishing.Reconcile` for some valid range orders |
| PublishingFrame.LoopContinues | controllers/publishingstrategy/publishingstrategy_controller.go:162-266 | a loop that runs to its end has written nothing and every entry's object passes every check |
| PublishingFrame.PassTouchesOwnedOrDefault | controllers/publishingstrategy/publishingstrategy_controller.go:133-142 | whatever fails, a pass leaves every name alone that is neither owned nor `default`, existing or not |
| PublishingFrame.RunTouchesOwnedOrDefault | controllers/publishingstrategy/publishingstrategy_controller.go:220-266 | **main**: the same over any run with changing strategies: names never grow beyond `default` |
| PublishingFrame.DonePassMeetsEntries | controllers/publishingstrategy/publishingstrategy_controller.go:239-266 | **main**: after a pass with no error and no requeue every entry's object exists, live, on AWS with the right load balancer type, and a non-default one agrees in domain, scope, selector, certificate and node selector at every version |
| PublishingFrame.DonePassCleansUp | controllers/publishingstrategy/publishingstrategy_controller.go:278-295 | **main**: such a pass leaves no unpublished object owned and live iff the version is below 4.13, or `default` is published, or nothing but `default` was left over |
| PublishingFrame.CleanPassLeavesRouter | controllers/publishingstrategy/publishingstrategy_controller.go:278-295 | on 4.13 without entries a pass without failing calls ends cleanly, disowns `default` and leaves an owned object in place, live |
| PublishingConvergence.VisitReady | controllers/publishingstrategy/publishingstrategy_controller.go:518-564 | whatever fails, a visit of a ready object passes on with everything settled, patches the one field named and requeues, or fails, or for lack of a platform status panics, and writes nothing; without failures it does not fail |
| PublishingConvergence.QuietPass | controllers/publishingstrategy/publishingstrategy_controller.go:649-703 | whatever fails, a pass over a quiet cluster keeps it quiet and either requeues with a lower total mismatch count, or fails or panics and changes nothing, or finds all settled, never requeues and writes no spec |
| PublishingConvergence.RequeuesAreBounded | controllers/publishingstrategy/publishingstrategy_controller.go:162-266 | **main**: in every run, with any failures in any pass, the requeues number at most the initial mismatches and at most four per entry; from the first pass that gets through the loop none requeues and no spec is written; every other pass wrote no spec and either failed, with a failing call, or panicked on an infrastructure object it cannot read |
| PublishingConvergence.CreatedIsNeverRewritten | controllers/publishingstrategy/publishingstrategy_controller.go:188-234 | a created object is never deleted or patched by later visits, whatever status, finalizers and annotations it acquires |
| PublishingNotes.AnnotateIff | controllers/publishingstrategy/publishingstrategy_controller.go:738-773 | under any failures and in any order the step continues iff a get and a patch for each published object up to the first annotated one, and the get of that one, succeed |
| PublishingNotes.AnnotatesAllIff | controllers/publishingstrategy/publishingstrategy_controller.go:738-773 | **main**: a pass without failing calls whose loop completes annotates all published objects in every map order iff all or none were annotated before |
| PublishingNotes.SecondGetsNothing | controllers/publishingstrategy/publishingstrategy_controller.go:752-754 | of two published objects the annotated one is visited first and the other gets nothing |
| PublishingPanics.ExistingPanicsIff | controllers/publishingstrategy/publishingstrategy_controller.go:440-564 | the checks of an existing object panic iff it is deleting, without the cluster finalizer, with a final cloud finalizer that is not the only one; or on AWS its endpoint has no load balancer or foreign parameters; or past the earlier checks its placement has no selector |
| PublishingPanics.LoopIff | controllers/publishingstrategy/publishingstrategy_controller.go:162-266 | under any failures the loop completes iff two calls per entry succeed and every entry is settled, and panics iff it gets to an entry that panics |
| PublishingPanics.SecondCheckIff | controllers/publishingstrategy/publishingstrategy_controller.go:422-438 | the check passes iff every secondary entry is owned already, and panics iff an undotted one comes before every one that is not owned |
| PublishingPanics.AfterLoopPanicsIff | controllers/publishingstrategy/publishingstrategy_controller.go:268-295 | after a completed loop a pass panics iff the annotation step continues, the platform is read, and it is missing, has no client, or the switch panics |
| PublishingPanics.PassPanicsIff | controllers/publishingstrategy/publishingstrategy_controller.go:87-296 | **main**: exactly when a whole pass panics, for every state, strategy, pattern of failing calls, map order and answer of the cloud: the host is too short for its base domain, the check of secondary entries panics, the loop gets to an entry that panics, or the loop completes and the alias step panics |
| PublishingDone.PassDoneIff | controllers/publishingstrategy/publishingstrategy_controller.go:87-296 | **main**: exactly when a pass ends with no error and no requeue, for every state, strategy, pattern of failing calls, map order and answer of the cloud: the reads, the secondary entries, every entry in its place, the annotation calls, the client, the switch if the strategy asks for internal or external, and the calls of the last step |
| PublishingEntry.PassRequeuesIff | controllers/publishingstrategy/publishingstrategy_controller.go:87-296 | **main**: a pass asks for another one iff it gets to an entry whose visit does, with every shape of object and failing call written out; nothing before or after the loop does |
| PublishingEntry.SettledMeans | controllers/publishingstrategy/publishingstrategy_controller.go:188-266 | the loop passes an object iff it is live, has nothing to be replaced for, and every patchable field is as the entry asks or excused by the status of `default` |
| PublishingEntry.DeletingMeans | controllers/publishingstrategy/publishingstrategy_controller.go:810-856 | a deleting object waits for every finalizer but the cloud one, loses that one once the cluster finalizer is gone, and is replaced when none is left |
| PublishingEntry.CleanPassAtEntry | controllers/publishingstrategy/publishingstrategy_controller.go:162-266 | **main**: what a pass without failing calls does at the entry it gets to, for every shape of its object: create, wait, unblock, replace, delete, set one field, panic or go on; each write requeues and touches no other object |
| PublishingPatches.PassKeepsLive | controllers/publishingstrategy/publishingstrategy_controller.go:440-450 | whatever fails, a published live object stays live unless its type or an immutable field is wrong |
| PublishingPatches.ReplacesIff | controllers/publishingstrategy/publishingstrategy_controller.go:440-482 | **main**: a pass without failing calls that gets to a live object deletes or marks it iff on AWS its load balancer type is not the entry's, or its domain, or before 4.10 its scope, is not, for `default` in the status too |
| PublishingPatches.PassWritesOneField | controllers/publishingstrategy/publishingstrategy_controller.go:649-703 | **main**: whatever fails, a pass that leaves a live object with another spec requeues and has set the first differing field to the entry's value; the other fields, domain, replicas, annotations, finalizers, status and mark are as before |
| PublishingPatches.QuietRunMerges | controllers/publishingstrategy/publishingstrategy_controller.go:649-703 | **main**: over every run on a quiet cluster an object keeps domain, replicas, finalizers, status and mark, and each patchable field is the old one or the entry's |
| PublishingSecondary.StuckForGood | controllers/publishingstrategy/publishingstrategy_controller.go:422-438 | **main**: while a secondary entry has no owned object, every pass of every run, with any failures, fails or panics and changes no object |
| PublishingSecondary.UpdateCompletes | controllers/publishingstrategy/publishingstrategy_controller.go:188-234 | **main**: with the cloud finalizer on it a secondary object whose immutable field changed is the desired one, live, after every interleaving whose calls succeed that holds a pass, a later drop of its cluster finalizer and a later pass |
| PublishingSecondary.FailedCreateLoses | controllers/publishingstrategy/publishingstrategy_controller.go:820-854 | even with it one failing call, the Create after the drained object is deleted, loses the object for every later run |
| PublishingSecondary.UpdateIsLost | controllers/publishingstrategy/publishingstrategy_controller.go:603-646 | without it one clean pass and the other controller remove the object, and every later run leaves it so |
| PublishingSecondary.UpdateSurvivesIff | controllers/publishingstrategy/publishingstrategy_controller.go:155-234 | **main**: every such interleaving ends with the desired object iff the cloud finalizer is on it already; without it no interleaving at all, with any failures, does |
| PublishingHandshake.PassPhase | controllers/publishingstrategy/publishingstrategy_controller.go:603-646 | whatever fails, the replacement of `default` only moves forward, and the object is untouched while the cluster finalizer is there |
| PublishingHandshake.HandshakeHolds | controllers/publishingstrategy/publishingstrategy_controller.go:810-856 | **main**: whether the static fields changed or, with the finalizer in place, the load balancer type: under every interleaving with the other controller, whatever objects it works on, `default` exists after every step as long as the calls succeed |
| PublishingHandshake.CleanPassAdvances | controllers/publishingstrategy/publishingstrategy_controller.go:810-856 | a pass without failures that reaches the entry requeues, marks a live object (draining or drained), replaces a drained one and creates a missing one with exactly the desired object, and changes nothing else |
| PublishingHandshake.ReplacementCompletes | controllers/publishingstrategy/publishingstrategy_controller.go:810-856 | **main**: from any phase, in every interleaving with the other controller on `default` whose calls succeed, after a pass, a later drop of the cluster finalizer and a later pass `default` is live with the desired spec |
| PublishingHandshake.TypeChangeNeedsTheFinalizer | controllers/publishingstrategy/publishingstrategy_controller.go:440-450 | **main**: on the load-balancer-type path `default` exists after every interleaving whose calls succeed iff the cloud finalizer was already there |
| PublishingHandshake.ClassicToNlbLosesDefault | controllers/publishingstrategy/publishingstrategy_controller.go:440-450 | a `default` created as Classic whose entry changes to NLB is gone after one clean pass and one drop |
| PublishingDisown.PassDisownsOrSpares | controllers/publishingstrategy/publishingstrategy_controller.go:278-289 | on 4.13 without a `default` entry a pass leaves `default` as it was or disowns it, and ends cleanly only in the second case |
| PublishingDisown.DisowningIsStable | controllers/publishingstrategy/publishingstrategy_controller.go:708-736 | **main**: over any run `default` is never deleted, and once disowned it stays exactly as it is |
| PublishingDisown.CleanPassDisownsForGood | controllers/publishingstrategy/publishingstrategy_controller.go:708-736 | **main**: after a clean pass it is owned by the cluster operator with only that finalizer and its old spec, for every later run |
| ConditionHistory.Find | pkg/controllerutils/conditions.go:76-83 | the first condition of the type, or none iff there is none |
| ConditionHistory.HistoryIsStutterFree | pkg/controllerutils/conditions.go:33-67 | **main**: for every sequence of reports the stored history is the reports without leading False ones and without repeats of the report just before |
| ConditionHistory.HistoryExtends | pkg/controllerutils/conditions.go:48-64 | from any non-empty history the reports are appended collapsed |
| ConditionHistory.HistoryGrows | pkg/controllerutils/conditions.go:48-64 | an earlier history is a prefix of every later one |
| ConditionHistory.NeighboursDiffer | pkg/controllerutils/conditions.go:86-95 | stored neighbours differ in status, reason or message, and the first is not False |
| ApiSchemeReconciler.SliceEquals | controllers/apischeme/apischeme_controller.go:392-403 | the loop answers true iff the slices are equal |
| ApiSchemeReconciler.Reconciler.SetApiSchemeStatus | controllers/apischeme/apischeme_controller.go:367-381 | history and state are written together or, when the call fails, not at all |
| ApiSchemeReconciler.Reconciler.FinalizeScheme | controllers/apischeme/apischeme_controller.go:143-197 | the deletion branch, with the absent Service and every answer of the cloud |
| ApiSchemeReconciler.Reconciler.EnsureAdminApi | controllers/apischeme/apischeme_controller.go:199-271 | one repair of the Service per pass, then the DNS call |
| ApiSchemeReconciler.Reconciler.HandleDnsAnswer | controllers/apischeme/apischeme_controller.go:271-325 | what is reported, deleted and returned for each answer of the cloud |
| ApiSchemeReconciler.Reconciler.ReconcileOnce | controllers/apischeme/apischeme_controller.go:93-325 | one whole pass leaves the state and outcome of `ApiScheme.Reconcile` |
| ApiSchemeTheorems.PassKeepsHistory | controllers/apischeme/apischeme_controller.go:367-381 | every pass keeps the state equal to the last condition's type, and the stored history only grows |
| ApiSchemeTheorems.PassDrawsNearer | controllers/apischeme/apischeme_controller.go:199-278 | a pass without failures lowers the number of passes needed by one, or is Ready with Service and status as specified |
| ApiSchemeTheorems.SteadyStays | controllers/apischeme/apischeme_controller.go:271-278 | a Ready state is a fixed point of the pass |
| ApiSchemeTheorems.ReadyWithinThree | controllers/apischeme/apischeme_controller.go:199-278 | **main**: from any Service state Ready comes after exactly the needed number of passes, at most three, and nothing changes afterwards |
| ApiSchemeTheorems.FinalizerGoesLast | controllers/apischeme/apischeme_controller.go:134-197 | from any state, whatever fails: EnsureAdminAPIDNS is called only while the server holds a live object with the finalizer, and the finalizer is lost only from a deleting object after this pass made a DeleteAdminAPIDNS call that succeeded or found the Service absent; without failures and with a client exactly then |
| ApiSchemeTheorems.FinalizerGoesLastOverRuns | controllers/apischeme/apischeme_controller.go:134-197 | **main**: over every run in which others leave the finalizer alone, every EnsureAdminAPIDNS call is made under it, and if it is lost some pass dropped it in that way |
| ApiSchemeTheorems.PassKeepsGuard | controllers/apischeme/apischeme_controller.go:134-197 | names are added only for a live object with the finalizer; no record is orphaned unless the object is being deleted while a record is out of reach: it has another name than the object now, or the Service is absent, or on AWS it points at another load balancer; there a pass without failures that has a client and deletes successfully does orphan it |
| ApiSchemeTheorems.OrphanedRecord | controllers/apischeme/apischeme_controller.go:149-158 | from a guarded state, removing the Service, deleting the object and one pass without failures leave the record without an object |
| ApiSchemeTheorems.StaleRecord | controllers/apischeme/apischeme_controller.go:296-314 | on AWS from a Ready state: the load balancer is lost, a pass recreates the Service, the object is deleted; the delete answers with success and both zones keep the old record |
| ApiSchemeTheorems.RenamedRecord | controllers/apischeme/apischeme_controller.go:128-171 | the object is renamed and deleted while the Services of both names exist; one pass without failures removes the object and leaves the record of the old name |
| ApiSchemeTheorems.GuardHoldsOverRuns | controllers/apischeme/apischeme_controller.go:134-197 | **main**: over every run, with any failures and any edits by others that leave the finalizer alone, renaming included, in which no pass starts with the object deleting and a record out of reach, no record outlives the finalizer |
| ApiSchemeTheorems.SchemePanicsIff | controllers/apischeme/apischeme_controller.go:93-325 | a pass panics iff it reads an enabled object and then no client can be made, or the DNS call it makes panics |
| ApiSchemeAnswers.AnswersMean | controllers/apischeme/apischeme_controller.go:271-325 | **main**: for each answer to EnsureAdminAPIDNS, from any state: how the pass ends, what it reports unless a call fails, and that the Service is deleted iff the forwarding rule is missing, or the load balancer is not ready and the object was Ready before |
| ApiSchemeAnswers.ReadyIsEarned | controllers/apischeme/apischeme_controller.go:271-283 | **main**: from any state and under any failures a Ready state or condition is stored only after an EnsureAdminAPIDNS call that succeeded |
| ApiSchemeAnswers.SuccessMakesReady | controllers/apischeme/apischeme_controller.go:274-278 | such a call without a failing one makes the object Ready |
| ApiSchemeAnswers.DeleteAnswersMean | controllers/apischeme/apischeme_controller.go:166-186 | for each answer to DeleteAdminAPIDNS: how the pass ends and what it reports |
| ApiSchemeAnswers.NoCallMeans | controllers/apischeme/apischeme_controller.go:93-271 | a pass without a call to the cloud fails only through a failing call, asks for another one only having written the Service or dropped the finalizer, and is done only with nothing to do |
| ApiSchemeAnswers.RepairsMean | controllers/apischeme/apischeme_controller.go:199-271 | a pass without failing calls creates the Service, or sets the first differing field, or sets the two annotations and calls the cloud |
| Route53.Client.GetPublicHostedZoneId | pkg/cloudclient/aws/private.go:702-718 | the first zone of exactly that name |
| Route53.Client.RecordExists | pkg/cloudclient/aws/private.go:626-663 | over any paging, true iff the zone holds the dotted record with that alias target |
| Route53.Client.UpsertARecord | pkg/cloudclient/aws/private.go:665-700 | submits an upsert unless the record is already there |
| Route53.Client.DeleteARecord | pkg/cloudclient/aws/private.go:578-623 | deletes the exact record and takes a missing one for success |
| Route53.Client.RetryInZone | pkg/cloudclient/aws/private.go:723-748 | the retry loop, its result and its seconds of sleep |
| Route53.Client.EnsureDnsRecord | pkg/cloudclient/aws/private.go:720-787 | cluster zone first, parent zone only after success |
| Route53.Client.EnsureDnsRecordsRemoved | pkg/cloudclient/aws/private.go:790-835 | the same two zones in the same order |
| Route53.RetryStops | pkg/cloudclient/aws/private.go:723-748 | the loop stops at the first success or after the tenth try, sleeping 1, 2, ... seconds between |
| Route53.RetryIsBounded | pkg/cloudclient/aws/private.go:760-785 | **main**: at most ten tries and 45 seconds in a zone; success iff one of ten calls in a row succeeds |
| Route53.BothZonesEffect | pkg/cloudclient/aws/private.go:720-787 | success means both zones changed and no other; exhausting the first zone leaves every zone's records untouched |
| Route53.NilRemovalLeaves | pkg/cloudclient/aws/private.go:578-623 | a removal that returned nil leaves a record at the name in a zone iff the record there had another target |
| Route53.AttemptIff | pkg/cloudclient/aws/private.go:578-700 | an attempt succeeds iff the zone is found and its two calls succeed, three if a record has to be written |
| Route53.BothZonesMean | pkg/cloudclient/aws/private.go:720-835 | **main**: nil for a domain of a first label and a rest means that both zones, of the domain and of the rest, hold exactly the wanted alias after an ensure and do not hold it after a removal, and nothing else changed |
| Route53.SucceedsIffFound | pkg/cloudclient/aws/private.go:720-835 | without failing calls an ensure or a removal succeeds iff both zones are found |
| Route53.EnsureThenRemove | pkg/cloudclient/aws/private.go:790-835 | **main**: ensure then remove, with retries and with or without final dots, leaves both zones as at the start minus the A record of that name |
| Route53.SecondEnsureSubmitsNothing | pkg/cloudclient/aws/private.go:681-684 | **main**: a second ensure in a row submits no change, whatever fails |
| OwnedNlbs.Account.Collect | pkg/cloudclient/aws/private.go:971-983 | slice and map of all pages hold the same ARNs |
| OwnedNlbs.Account.KeepOwnedInBatches | pkg/cloudclient/aws/private.go:989-1017 | batches of 1 to 20 concatenate to the ARN list, and exactly the owned ones are kept; it fails iff a call failed |
| OwnedNlbs.Account.KeepOwned | pkg/cloudclient/aws/private.go:1004-1016 | drops exactly the described load balancers without the owned tag |
| OwnedNlbs.Account.ListOwnedNlbs | pkg/cloudclient/aws/private.go:957-1031 | **main**: whatever the paging, exactly the owned load balancers, each once; none iff a call failed, and it succeeds when no call fails |
| OwnedNlbs.Account.CanDeleteNlb | pkg/cloudclient/aws/private.go:1266-1290 | cluster tag, no service-name tag, Name ending in `-ext`; no answer iff the call failed |
| OwnedNlbs.Account.RemoveFromMachines | pkg/cloudclient/aws/private.go:73-123 | each machine whose snapshot holds the name, or has no list at all, gets the snapshot's list without the name, every other stays; on error, iff a call failed, some of them stay too |
| OwnedNlbs.Account.RemovalClosure | pkg/cloudclient/aws/private.go:1179-1238 | a machine set that was active before the loop is deleted first, which fails if it is gone already; each machine is as before or as the closure leaves it, all of the latter on success |
| OwnedNlbs.Account.GetInternalApiNlb | pkg/cloudclient/aws/private.go:914-953 | an owned internal load balancer named after the cluster; none iff a call failed or there is none |
| OwnedNlbs.Account.RemoveLoadBalancerFromMasterNodes | pkg/cloudclient/aws/private.go:840-912 | **main**: without a failed call exactly the owned internet-facing, deletable load balancers are gone and the internal one is found iff it exists; after one only some of those are gone; in every case the machines are as the closures for the gone ones leave them, the last perhaps unfinished; with a healthy API a step fails iff the machine set is active, is not put back between removals, and two load balancers are to go |
| OwnedNlbs.MachineIsCleanIff | pkg/cloudclient/aws/private.go:872-896 | a machine is rid of all removed load balancers iff at most one of them was on its list |
| OwnedNlbs.DoomedMeans | pkg/cloudclient/aws/private.go:1266-1290 | which load balancers are to go, tag by tag: internet-facing, owned by the cluster, no service name, the last Name ending in `-ext`; and which is the internal one |
| OwnedNlbs.SecondRemovalUndoesTheFirst | pkg/cloudclient/aws/private.go:872-896 | removing `a` and then `b` from a machine behind both leaves `a` |
| GcpDns.LastSegment | pkg/cloudclient/gcp/private.go:632-639 | the part after the last slash |
| GcpDns.Client.CreateChange | pkg/cloudclient/gcp/private.go:186-194 | a change is applied whole iff its deletions exist and its additions are free |
| GcpDns.Client.EnsureZone | pkg/cloudclient/gcp/private.go:162-195 | builds the change from the listed records of every type at the name; submits it only if the record is not there |
| GcpDns.Client.RemoveZone | pkg/cloudclient/gcp/private.go:235-261 | deletes all records listed at the name |
| GcpDns.Client.EnsureDnsForService | pkg/cloudclient/gcp/private.go:112-198 | load balancer and forwarding rule first, then zone by zone |
| GcpDns.Client.RemoveDnsForService | pkg/cloudclient/gcp/private.go:217-264 | zone by zone, up to the first failure |
| GcpDns.EnsurePlacesRecord | pkg/cloudclient/gcp/private.go:162-198 | **main**: on success the A record holds the wanted addresses in every configured zone, other names and zones are untouched, and no submitted change was invalid |
| GcpDns.EnsureAnswers | pkg/cloudclient/gcp/private.go:112-198 | exactly when an ensure answers not ready, rule not found and success, in terms of the addresses, the listed rules, the zones and the calls |
| GcpDns.RemoveAnswers | pkg/cloudclient/gcp/private.go:217-264 | exactly when a removal succeeds |
| GcpDns.OkMeans | pkg/cloudclient/gcp/private.go:162-198 | every configured zone, by its name or the last part of its path, holds exactly the addresses under the full name after an ensure, and nothing there after a removal |
| GcpDns.EnsureSucceeds | pkg/cloudclient/gcp/private.go:112-264 | without failing calls and with the zones there, an ensure succeeds iff the first address has a rule, and a removal always |
| GcpDns.SecondEnsureSubmitsNothing | pkg/cloudclient/gcp/private.go:178-194 | a second ensure submits nothing, whatever fails |
| GcpDns.EnsureThenRemove | pkg/cloudclient/gcp/private.go:217-264 | **main**: a removal after an ensure takes away everything at the name in the configured zones and nothing else |
| GcpStaticIp.Client.UpdateApiARecord | pkg/cloudclient/gcp/private.go:480-519 | insists on one record set, replaces its data, returns the old address |
| GcpStaticIp.Client.RemoveLoadBalancerFromMasterNodes | pkg/cloudclient/gcp/private.go:279-336 | in any order of the listing, deletes the external rule and finds the internal address |
| GcpStaticIp.Client.SetDefaultApiPrivate | pkg/cloudclient/gcp/private.go:51-72 | rule, record, address, with every early exit |
| GcpStaticIp.Client.CreateExternalIpAddress | pkg/cloudclient/gcp/private.go:409-446 | reuses the named address or reserves one, with the panic of a failed wait |
| GcpStaticIp.Client.CreateNetworkLoadBalancer | pkg/cloudclient/gcp/private.go:456-478 | needs the target pool, then inserts the rule |
| GcpStaticIp.Client.SetDefaultApiPublic | pkg/cloudclient/gcp/private.go:76-110 | address, rule, record; an existing rule ends it at once |
| GcpStaticIp.PrivateIsSafe | pkg/cloudclient/gcp/private.go:51-72 | whichever call fails, the record stays internal or at the reserved address and an external rule uses the reserved address |
| GcpStaticIp.PublicIsSafe | pkg/cloudclient/gcp/private.go:76-110 | the same for a switch to public |
| GcpStaticIp.RunIsSafe | pkg/cloudclient/gcp/private.go:51-110 | **main**: the same after every run of switches |
| GcpStaticIp.PrivateOkMeans | pkg/cloudclient/gcp/private.go:57-69 | **main**: a nil return means an internal record and no external rule; the static address stays reserved iff it was reserved and the record was internal before |
| GcpStaticIp.AddressIsKept | pkg/cloudclient/gcp/private.go:57-69 | from the state a failed switch to public leaves, a switch to private returns nil and keeps the address reserved |
| GcpStaticIp.PrivateBlanksIff | pkg/cloudclient/gcp/private.go:57-69 | a switch to private that returned nil blanked the record iff no internal rule with an address was found, and then released the static address and the external rule unless the record was blank before |
| GcpStaticIp.RefusedBlank | pkg/cloudclient/gcp/private.go:57-69 | if the DNS service refuses an empty address, a switch to private without an internal rule changes neither record nor address and succeeds only on a blank record |
| GcpStaticIp.BlankRecord | pkg/cloudclient/gcp/private.go:57-69 | a public API without an internal rule, no call failing: its record is blanked if the service takes an empty address, and else the switch fails with the external rule gone |
| GcpStaticIp.PublicOkMeans | pkg/cloudclient/gcp/private.go:86-107 | **main**: a nil return means a rule on the reserved address; the record points there iff the rule was new or it already did |
| GcpStaticIp.FailedUpdateIsNeverRepaired | pkg/cloudclient/gcp/private.go:86-107 | after a failed record update no later switch to public moves the record |
| GcpSwitches.PrivateOkIff | pkg/cloudclient/gcp/private.go:51-72 | **main**: exactly when a switch to private succeeds and when it panics, in terms of the calls that succeed, the one record set and the reserved address |
| GcpSwitches.PublicOkIff | pkg/cloudclient/gcp/private.go:76-110 | **main**: exactly when a switch to public succeeds, what it then leaves, and when it panics, in terms of the calls, the target pool, the free name, the reservation in time and the one record set |
| GcpSwitches.PrivateSucceeds | pkg/cloudclient/gcp/private.go:51-72 | from a safe state without failing calls a switch to private succeeds and leaves the record internal |
| GcpSwitches.PublicSucceeds | pkg/cloudclient/gcp/private.go:76-110 | from a safe state without failing calls a switch to public succeeds and leaves the record at the reserved address |

## Left out

- PublishingReconciler.Reconciler.EnsureAliasScope: the switch itself is an answer (success, error or panic) that changes no IngressController; what it does on each cloud is in `OwnedNlbs`, `Route53` and `GcpStaticIp`.
- GcpStaticIp.Client.RemoveLoadBalancerFromMasterNodes: leaves out the target pools of the machines, where the closure applies the same filter as on AWS and only logs a failing patch.
- OwnedNlbs.Account.RemoveFromMachines: whether the encoder writes an empty list or none is not modelled; both name no load balancer.
- Concurrent writers inside one reconcile: a pass is atomic except for failing calls; others act between passes.
- The rule that a deleting object takes no new finalizers, and update conflicts: neither arises without a concurrent writer except when a deleting `default` is disowned, where the server may refuse.
- Nil and empty label maps are the same map here, and label selectors are compared by their labels only, as the validators do.
- Fields of endpoints other than type, load balancer scope and AWS parameters (host network, node port, GCP access): never read by the validators.
- Services carry only the fields the controller compares, plus finalizers; ports, selector and labels are written once and never read.
- Version strings other than a number or two numbers around one separator, such as three segments: no caller in this repository passes one.
- `SetClusterVersion`: one read and one write of the environment.
- The background goroutine that re-enables the control plane machine set: it depends on real time and on another controller.
- `setDefaultAPIPrivate` and `setDefaultAPIPublic` on AWS: sequences of parts modelled here, with subnet and target group lookups.
- `isSubnetPublic` and the subnet and route table listings, whose repeat call carries no token.
- A change of the cluster's DNS zones between passes: the zones of the admin API record are the same throughout a run.
- Weighted or otherwise multi-valued Route 53 record sets, and the `/hostedzone/` prefix of zone ids.
- Provider spec encoding, credentials, sessions, logging, metrics and `controllers/routerservice`.
