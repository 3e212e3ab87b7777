# The Elemental host lifecycle, verified

The Elemental provider for Cluster API turns bare hosts into cluster machines. Two programs that never share a
transaction cooperate on one object, the `ElementalHost`:

- on the management cluster, the machine controller claims a host with two separate writes (the host first, then the
  machine), the host controller guards deletion with a finalizer and copies OS version instructions to the host, and
  the Elemental API applies the PATCH and DELETE requests of the agents;
- on the host, the agent registers, installs, upgrades, bootstraps and resets the system in retry loops over calls
  that fail, and reports what it did by PATCH requests.

This project models both halves and proves what their interplay promises: no host is ever allocated twice, a host
disappears only after it was really reset, flags are reported only after the fact, upgrades do not loop.

## How the model is built

| file | what it holds |
|---|---|
| `Common.dfy`, `Objects.dfy` | options, keys, hosts and machines as values |
| `Patches.dfy`, `Store.dfy` | field-level merge patches; the store and the fetched copies that controllers edit |
| `ElementalApi.dfy` | PATCH and DELETE of a host, and the response to the agent |
| `HostReconciler.dfy`, `MachineReconciler.dfy` | the two controllers, each method proved against a function of the old state |
| `MachineOutcomes.dfy` | what one machine reconcile leaves in the store, in the fields of the stored objects |
| `Convergence.dfy` | repeated machine reconciles settle |
| `AgentProtocol.dfy` | the log of an agent's calls: which call is justified by the calls before it, and what that implies |
| `Agent.dfy` | the agent's context, the log it keeps, OS version reconciliation against the snapshots |
| `RetryLoops.dfy` | which call sequences the install and reset loops may make, and what a finished loop has achieved |
| `ResetPhase.dfy`, `InstallPhase.dfy`, `RegisterPhase.dfy`, `RunLoop.dfy` | the agent's handlers and loops |
| `ElementalOSPlugin.dfy` | the plugin's files: bootstrap conversion, `set-*.yaml` names, installation |
| `Management.dfy` | the management cluster as a labelled transition system |
| `ManagementSafety.dfy`, `ManagementRuns.dfy` | its invariant, and the theorems over every run |
| `ManagementReplies.dfy`, `ManagementRelease.dfy` | agents act only on what the management side said; machines leave only a host that is marked or gone |
| `Refinement.dfy` | the methods of both halves are paths of the transition system |

Methods that change state are proved against functions of the old state. What these functions answer is said once more
without them, in the fields of the objects: by `MachineOutcomes.dfy` for the machine controller, and by the lemmas named
`...Outcome` and `...Means` elsewhere.

In the transition system every store access of a machine reconcile is a step of its own, and a crash may drop the rest
between any two. Host reconciles and API patches read in one step and write in a later one, any number at a time, each
write landing never, once or repeatedly. The reply to a PATCH is on its way for any time. Agent calls, users and
deletions interleave anywhere. Hosts and machines are unbounded maps. The two halves meet in one place: a step of an
agent is any call that `AgentProtocol.MaySend` justifies by the log of its host, an iteration of an agent works on a
reply that was given, and the handlers of the agent are proved to make no other call. `Refinement.dfy` joins the two:
the log that the agent's context keeps is a path of the transition system, a PATCH or DELETE call is a path that changes
the store as the handler changes it and logs the handler's outcome, and every path from a reachable state ends in one.
In particular, that the host is marked whenever its agent has seen a DELETE succeed is what the DELETE handler does, not
an assumption.

## Assumptions

- Reads are current: there is no stale informer cache.
- A patch of one object lands in one step. The patch helper of Cluster API writes spec, status and conditions in calls of
  their own; that a ready machine has a provider ID rests on the two fields landing together.
- One machine reconcile is under way at a time.
- Free-form labels of registrations and of PATCH requests avoid the controllers' own keys.
- Users do not edit host references, machine references or the controllers' labels, except that they may set the
  in-place update label to `pending`. Only this controller's finalizer is ever put on a host.
- Host names are never used twice. That holds for the random names of `internal/agent/hostname/hostname.go:47-53`. It
  excludes registrations with `useExisting`, where a host that was reset registers again under its old name: the code
  looks hosts up by name and ignores the UID, so it would take the new host for the old one.
- The agent sends the boolean flags of a PATCH only as `true`.
- A failed call has no effect. Where a method of the agent is proved to terminate, only finitely many calls fail.
- A registration starts a new log. A snapshot that an upgrade added is retained, whichever snapshot is active.
- SHA-256 is injective.
- Sending a call and its answer are one step of the agent; a request and the write it causes are separate steps of the
  management side.

Label keys, condition types, reasons and phases are constructors instead of strings. Raw JSON is kept as text per
top-level key. A read answers `Failed`, `Missing` or `Found`; errors are results.

## Where the code and its documentation differ

- The error message of the PATCH handler (`internal/api/elementalhost_controller.go:118`) says that a host without a
  secret cannot be marked as bootstrapped. The handler checks the value of the flag but sets the label whenever the flag
  is present: `bootstrapped: false` is admitted and labels the host. `WhenPatchKeepsBootstrapGuarded` gives the exact condition.
- The response for a host without labels leaves out the OS version instructions (`ResponseOsVersion`). A linked host
  always has labels, so its agent is not affected (`LinkedHostsReceiveOsVersion`).
- The comment on `HostWaitingForInstall` says that only a user's edit can cause it. That is true of the code although
  the lookup of an already linked host does not ask for the installed label (`NeverWaitingForInstall`).
- The agent's configuration may have any path, but the installation lists one fixed file for it: it is the one that was
  written exactly if the configuration is called `config.yaml` (`ListedFilesExist`); `OtherConfigIsNotListed` shows a
  path for which it is not.

## Model

| member | source | states |
|---|---|---|
| `ManagementRuns.ExclusiveAssociation` | internal/controller/elementalmachine_controller.go:510-612 | in every reachable state two machines never refer to the same host, and a live host named by a machine names it back in its machine reference and label, has its secret and is installed |
| `ManagementRuns.OneHostPerMachine` | internal/controller/elementalmachine_controller.go:614-727 | in every reachable state a machine's name is on at most one live host that is not being reset, so a crash between the two writes never consumes a second host |
| `ManagementRuns.RecoveryFindsTheLinkedHost` | internal/controller/elementalmachine_controller.go:694-727 | after a crash between the two writes every later successful lookup returns exactly the host that was linked before |
| `ManagementRuns.LinkReachesTheHost` | internal/controller/elementalmachine_controller.go:569-612 | a link that lands in any reachable state gives its host the machine reference, the bootstrap secret of the owner machine and both name labels, whatever happened to the host since it was read; OS version and cluster name become the machine's unless someone else changed them meanwhile; nothing else changes |
| `ManagementRuns.OwnershipIsForever` | internal/controller/elementalmachine_controller.go:569-612 | between any two states of a run a linked host keeps its machine reference and name label; that a name does not come back either rests on the assumption about names |
| `ManagementRuns.GoneOnlyAfterReset` | internal/controller/elementalhost_controller.go:130-151 | a host that ever carried the finalizer and is gone left with its reset label, and its agent had seen the plugin's reset succeed after a successful DeleteHost of the same iteration, with no failure in between |
| `ManagementRuns.ResetLabelMeansReset` | internal/agent/phase/reset.go:64-126 | the reset label on a live host means that it is marked for deletion and that the plugin's reset succeeded after a successful DeleteHost of the same iteration |
| `ManagementRuns.BootstrappedMeansObserved` | internal/api/elementalhost_controller.go:115-138 | a host labelled as bootstrapped is linked, installed and has its secret, and its agent saw the sentinel file, whatever interleaves |
| `ManagementRuns.LinkedMeansInstalled` | internal/controller/elementalmachine_controller.go:659-727 | every linked host is installed and has its secret, also between the two writes and when it is found through the lookup that does not ask for the installed label |
| `ManagementRuns.InstalledMeansInstalled` | internal/agent/phase/install.go:42-117 | a host labelled as installed got its cloud-config and then its installation |
| `ManagementRuns.NeverWaitingForInstall` | api/v1beta1/constants.go:134-137 | no machine of any run ever carries the reason HostWaitingForInstall |
| `ManagementRuns.ProviderIDNamesTheHost` | internal/controller/elementalmachine_controller.go:278-307 | a stored provider ID is the one of the current host reference, and a ready machine has one, on every path including the early returns |
| `ManagementRuns.ProviderIDIsInjective` | internal/controller/elementalmachine_controller.go:467-468 | without slashes in namespaces, different hosts have different provider IDs |
| `ManagementRuns.ProviderIDsAreUnique` | internal/controller/elementalmachine_controller.go:457-508 | no two machines of a reachable state share a provider ID |
| `ManagementRuns.LabelsOnlyGrow` | internal/api/types.go:81-126 | between any two states of a run no label key of a host is lost, and installed, bootstrapped, needs-reset and reset never revert |
| `ManagementRuns.RunAdvances` | internal/controller/elementalhost_controller.go:95-154 | what never changes back over a run: names used, finalizers seen, owners, agent logs, the flags and references of every surviving host |
| `ManagementRuns.LinkedHostsReceiveOsVersion` | internal/api/types.go:128-150 | the response for a linked host carries its OS version instructions and says that its bootstrap is ready |
| `ManagementSafety.RunKeepsInv` | internal/controller/elementalmachine_controller.go:194-328 | the invariant of hosts, machines, pending writes, the worker, names and logs holds in every state of every run |
| `ManagementSafety.StepKeepsInv` | internal/controller/elementalhost_controller.go:95-154 | each single step of controllers, handlers, agents and users keeps the invariant |
| `ManagementSafety.LinkKeepsInv` | internal/controller/elementalmachine_controller.go:569-612 | the first of the two writes of an association keeps the invariant, although the host may have changed since it was read |
| `ManagementSafety.SaveKeepsInv` | internal/controller/elementalmachine_controller.go:194-240 | the deferred machine patch keeps the invariant, although the machine may have changed since it was read |
| `ManagementSafety.MarkKeepsInv` | internal/controller/elementalmachine_controller.go:729-771 | asking for the reset of a deleted machine's host keeps the invariant |
| `ManagementSafety.PatchRequestIsSafe` | internal/api/types.go:81-126 | what an admitted request of an agent writes later on is backed by its log and never touches a link |
| `ManagementSafety.HostReconcileIsSafe` | internal/controller/elementalhost_controller.go:95-279 | what a host reconcile writes later on is safe whenever it lands: the finalizer goes only from a host that is being deleted and was reset |
| `Refinement.MachineReconcileIsAPath` | internal/controller/elementalmachine_controller.go:194-328 | a whole machine reconcile, with any failing calls, is a path of the transition system with the same effect on the store |
| `Refinement.HostReconcileIsAPath` | internal/controller/elementalhost_controller.go:95-154 | a whole host reconcile, whichever calls fail, is a path with the same effect on the hosts; a failed read of the machine still stores the rest |
| `Refinement.PatchIsAPath` | internal/api/elementalhost_controller.go:57-178 | a PATCH request of an agent, whatever the environment answers, is a path with the same effect on the hosts |
| `Refinement.PatchCallIsAPath` | internal/agent/phase/common.go:11-44 | a justified PATCH call of an agent is a path: the log gets the call with the outcome and the reply of the handler, the store what the handler writes |
| `Refinement.DeleteIsAPath` | internal/api/elementalhost_controller.go:336-411 | a DELETE call of an agent is a path from every reachable state: if it succeeds the host is marked for deletion or gone before the agent logs the success |
| `Refinement.LogIsAPath` | internal/agent/phase/reset.go:64-126 | any justified continuation of an agent's log whose replies were given is a path that leaves all other logs alone; the store stays as it is, except that a successful DeleteHost finds its host marked for deletion or marks it |
| `Refinement.AgentIsAPath` | cmd/agent/run.go:30-99 | the log that the agent's context really keeps is such a path, including resets that mark the host themselves |
| `Refinement.PathStaysReachable` | internal/controller/elementalmachine_controller.go:194-328 | every path from a reachable state ends in a reachable state, so the theorems over runs hold after every method |
| `Refinement.ResetReleasesTheHost` | internal/controller/elementalhost_controller.go:247-279 | from every reachable state in which an agent may report its reset, that report and one host reconcile lead to a state without the host |
| `Management.AgentRequestsAreAdmitted` | internal/agent/phase/install.go:106-112 | every PATCH request that the agent sends is one that the transition system lets interleave |
| `Convergence.ThreeReconcilesSettle` | internal/controller/elementalmachine_controller.go:330-447 | with everything outside the store frozen, including calls that keep failing, three reconciles of a machine reach a state that no further one changes |
| `Convergence.WhatSettles` | internal/controller/elementalmachine_controller.go:330-455 | a settled machine has a live host and is ready exactly if that host is installed and bootstrapped, the control plane is up and the provider ID is set; or it has no host and none matches it |
| `Convergence.LinkedIsFoundAgain` | internal/controller/elementalmachine_controller.go:614-638 | a host linked once is the candidate found again, and linking it again changes nothing |
| `Refinement.WholeResetReleasesTheHost` | internal/agent/phase/reset.go:58-126 | a whole reset of the agent, whatever failed on the way, its report and one host reconcile lead from any reachable state to a reachable one without the host |
| `Refinement.DeletedHostIsAsked` | internal/controller/elementalhost_controller.go:247-279 | from every reachable state with a host that is being deleted and was not reset, one reconcile of the host and the next PATCH of its agent are a path to a state in which the agent's log ends with a reply that asks for the reset |
| `Refinement.NoDeletedHostIsStuck` | internal/controller/elementalhost_controller.go:247-279 | from every reachable state with a host that is being deleted some path leads to a reachable state without it, and with everything else as it was: request, trigger, reset, report and release |
| `ManagementReplies.RunKeepsReplies` | internal/api/types.go:128-150 | in every state of every run what any reply said about its host still stands, both for replies on their way and for those in an agent's log |
| `ManagementReplies.BootstrapOnLinkedHostsOnly` | cmd/agent/run.go:80-95 | a bootstrap configuration is applied only on a host that was linked; if it is still there, it is linked to the same machine and has its secret |
| `ManagementReplies.ResetTriggeredOnDemandOnly` | cmd/agent/run.go:43-60 | a reset is triggered only on a host that is marked needs-reset or gone by now |
| `ManagementRelease.HostsAreReleased` | internal/controller/elementalmachine_controller.go:729-771 | over any run, with any crash and interleaving, a machine that refers to a host still does, or that host is marked needs-reset or gone; so a machine that left has released its host |
| `MachineReconciler.ElementalMachineReconciler.Reconcile` | internal/controller/elementalmachine_controller.go:194-328 | the store and the returned error, for every combination of failing calls and answers of the CAPI objects |
| `MachineReconciler.ElementalMachineReconciler.ReconcileMachine` | internal/controller/elementalmachine_controller.go:242-328 | the checks for owner, cluster, infrastructure and bootstrap secret, the finalizer, and which reconcile follows; `MachineOutcomes.StoppedOutcome` and the outcomes below say what that stores |
| `MachineReconciler.ElementalMachineReconciler.ReconcileNormal` | internal/controller/elementalmachine_controller.go:330-455 | clears a dead reference, associates a host, or evaluates the host's flags and sets the provider ID |
| `MachineReconciler.ElementalMachineReconciler.SetProviderID` | internal/controller/elementalmachine_controller.go:457-508 | the four outcomes: no host reference, already set, node missing or unreachable, set |
| `MachineReconciler.ElementalMachineReconciler.AssociateElementalHost` | internal/controller/elementalmachine_controller.go:510-567 | the host is patched first and the machine's copy refers to it only if that succeeded |
| `MachineReconciler.ElementalMachineReconciler.LinkElementalHostToElementalMachine` | internal/controller/elementalmachine_controller.go:569-612 | reference, secret, labels and OS version of the host, as one patch of what changed; field by field in `MachineOutcomes.AssociationOutcome` and `ManagementRuns.LinkReachesTheHost` |
| `MachineReconciler.ElementalMachineReconciler.FindAvailableHost` | internal/controller/elementalmachine_controller.go:614-638 | an already linked host wins over a new one; a listing error or a bad selector is an error |
| `MachineReconciler.ElementalMachineReconciler.LookUp` | internal/controller/elementalmachine_controller.go:640-727 | the first host of a listing, in any order of the listing |
| `MachineReconciler.ElementalMachineReconciler.ReconcileDelete` | internal/controller/elementalmachine_controller.go:729-771 | asks for the reset of the host and only then lets the machine go; a missing host keeps the finalizer |
| `MachineOutcomes.StoppedOutcome` | internal/controller/elementalmachine_controller.go:242-328 | which machine is stored if the reconcile does not get past the first checks: the condition carries the reason of the first that fails (owner, cluster, infrastructure that is not ready, bootstrap secret), everything else of the machine, and every host, stays |
| `MachineOutcomes.AssociationOutcome` | internal/controller/elementalmachine_controller.go:510-612 | a machine without host whose cluster infrastructure is ready and whose owner has its secret: with a candidate the stored machine refers to it and the stored host got reference, secret, labels and OS version and kept everything else; if the host cannot be written neither half is stored; without a candidate the condition says so; a failed listing is an error |
| `MachineOutcomes.CandidateMeans` | internal/controller/elementalmachine_controller.go:614-727 | which host a machine gets: the first of the namespace that carries its name and is not being reset, else the first installed one without machine that meets the selector; and exactly when there is none or the search fails |
| `MachineOutcomes.LostHostOutcome` | internal/controller/elementalmachine_controller.go:347-376 | a machine whose host is gone loses reference and provider ID, with the condition; if the host cannot be read it keeps both, and the reconcile fails |
| `MachineOutcomes.LiveHostOutcome` | internal/controller/elementalmachine_controller.go:377-508 | the stored machine of a live host for every combination of installed, bootstrapped, control plane, provider ID and tracker answer, field by field, and whether the reconcile fails |
| `MachineOutcomes.DeletionOutcome` | internal/controller/elementalmachine_controller.go:729-771 | a deleted machine with the finalizer: the host gets the needs-reset label and nothing else, then the finalizer goes; a host that is missing, unreadable or not writable keeps the machine as it was |
| `MachineOutcomes.FailedOutcome` | internal/controller/elementalmachine_controller.go:194-240 | a machine that cannot be read or is absent leaves the store alone; a machine that cannot be saved stays, while its host is changed as if it could |
| `MachineReconciler.SelectsLinked` | internal/controller/elementalmachine_controller.go:694-713 | the requirements of the first lookup select exactly the hosts with the machine's name that are not being reset |
| `MachineReconciler.SelectsAvailable` | internal/controller/elementalmachine_controller.go:640-676 | the requirements of the second lookup select exactly the installed hosts that match the selector, have no machine and are not being reset |
| `MachineReconciler.FirstIsListed` | internal/controller/elementalmachine_controller.go:678-692 | the first item of a listing matches, and there is none exactly if nothing matches |
| `HostReconciler.Reconcile` | internal/controller/elementalhost_controller.go:95-154 | the store and the returned error, also after a failing read of the machine and for a failing deferred patch |
| `HostReconciler.ReconcileNormal` | internal/controller/elementalhost_controller.go:156-192 | OS version first, then the conditions that the flags of the host imply |
| `HostReconciler.ReconcileOSVersionManagement` | internal/controller/elementalhost_controller.go:194-245 | copies the machine's OS version and sets the condition with the reason that the bootstrapped and pending labels choose |
| `HostReconciler.ReconcileDelete` | internal/controller/elementalhost_controller.go:247-279 | releases a reset host, and asks any other for a reset once; field by field in `HostReconciler.DeletedHostOutcome` |
| `HostReconciler.DeletedHostOutcome` | internal/controller/elementalhost_controller.go:247-279 | a deleted host with the finalizer loses it once it carries the reset label, and otherwise gets the needs-reset label unless it has it; with the condition of either case and no other change |
| `HostReconciler.DeletedHostAsksForReset` | internal/controller/elementalhost_controller.go:264-266 | a deleted host with the finalizer that was not reset always carries the needs-reset label after a reconcile |
| `HostReconciler.LiveHostOutcome` | internal/controller/elementalhost_controller.go:156-245 | a host that is not being deleted gets the finalizer, the OS version of the stored machine it refers to, and under every type the condition that its labels and the change of OS version call for; nothing else changes, and after a failed read only the finalizer does |
| `HostReconciler.ErrorsMean` | internal/controller/elementalhost_controller.go:95-128 | which reconciles fail: exactly those of a live linked host whose machine cannot be read, which still store the edited host, and those whose host cannot be read or written, which change nothing; a deleted host without finalizers is removed |
| `HostReconciler.ReconcileIsIdempotent` | internal/controller/elementalhost_controller.go:95-279 | reconciling again changes nothing, for every host and every answer of the machine's read |
| `HostReconciler.OsVersionPropagates` | internal/controller/elementalhost_controller.go:194-245 | afterwards a linked host has its machine's OS version, and the condition was set to false, with the right reason, exactly if that changed |
| `HostReconciler.FinalizerOnlyAfterReset` | internal/controller/elementalhost_controller.go:247-279 | the finalizer is taken away exactly from a host that is being deleted and carries the reset label |
| `ElementalApi.PatchElementalHost` | internal/api/elementalhost_controller.go:57-178 | exactly when an agent gets which reply; only the named host changes, exactly for an admitted request; after a successful reply the stored host differs from the old one entry by entry as the request says, and the reply shows it |
| `ElementalApi.DeleteElementalHost` | internal/api/elementalhost_controller.go:336-411 | exactly when a deletion is accepted, denied, not found or fails; it marks the host, and removes it exactly if it has no finalizer and was not being deleted |
| `ElementalApi.ApplyToElementalHost` | internal/api/types.go:81-126 | every label, annotation and condition of the edited host is the one the request carries, or else the host's own; so is its phase; present flags become true; finalizers, references, secret and OS version stay |
| `ElementalApi.PatchOutcome` | internal/api/types.go:81-126 | the same of the function that the handler and the transition system share |
| `ElementalApi.PatchIsIdempotent` | internal/api/types.go:81-126 | applying a request twice equals applying it once |
| `ElementalApi.ResponseReflectsFlags` | internal/api/types.go:128-150 | for every request the response after a patch shows exactly the flags that the patch wrote or else the host had; without controllers' own keys among the free-form labels these are the flags of the request and of the host |
| `ElementalApi.ResponseFlags` | internal/api/types.go:128-150 | every field of the response in terms of the host's labels, secret and OS version, also for a host without labels |
| `ElementalApi.ResponseOsVersion` | internal/api/types.go:133-149 | the response carries the host's OS version exactly if the host has a label or there is none to carry |
| `ElementalApi.WhenPatchKeepsBootstrapGuarded` | internal/api/elementalhost_controller.go:115-122 | an admitted request leaves no host labelled as bootstrapped without a secret, exactly if the host has one or the request carries neither the flag nor the label |
| `ElementalApi.BootstrapGuardCanFail` | internal/api/types.go:91-99 | a request with the flag set to false is admitted and labels a host that has no secret |
| `Patches.HostRoundTrip` | internal/controller/elementalhost_controller.go:111-128 | merging the difference of two copies into the first gives the second, so an undisturbed patch stores the edited host |
| `Patches.MergedEntry` | internal/controller/elementalhost_controller.go:111-128 | a merge into a host that others changed keeps every entry that the copy did not change |
| `Patches.MergedHost` | internal/controller/elementalhost_controller.go:111-128 | field by field, a patch of a host computed on an older copy keeps what its writer left alone and stores what it changed; it never takes a deletion back |
| `Patches.MergedMachine` | internal/controller/elementalmachine_controller.go:194-240 | the same for machines; no reconcile ever writes what only users edit |
| `AgentProtocol.BoundedReboots` | internal/agent/plugin/elemental/elemental.go:360-434 | over any run of the agent, whatever snapshot is active, OS reboots are at most upgrades and these at most the distinct instructions received |
| `AgentProtocol.UpgradedOnce` | internal/agent/plugin/elemental/elemental.go:419-425 | each hash is upgraded to successfully at most once, in every log whose upgrades are justified as `EnsureSnapshot` proves |
| `Agent.AgentContext.EnsureSnapshot` | internal/agent/plugin/elemental/elemental.go:372-393 | no upgrade to a hash that some snapshot carries; a new snapshot exactly with a reboot, and otherwise no change |
| `AgentProtocol.BootstrapFollowsOsVersion` | cmd/agent/run.go:62-95 | before every application of the bootstrap configuration the same iteration reconciled the OS version of the same reply without a reboot |
| `Agent.BootstrapOnTheRightOsVersion` | cmd/agent/run.go:62-95 | in every log of the agent's context, at every application of the bootstrap configuration, the instructions of the same iteration's reply name no image, or a snapshot that carries their hash had just been seen |
| `Agent.UpgradesAsAsked` | internal/agent/plugin/elemental/elemental.go:360-394 | every successful upgrade installs the image of the received instructions with its hash |
| `AgentProtocol.SettledIsInPlace` | internal/agent/plugin/elemental/elemental.go:367-387 | a reconciliation that ended without reboot had no image, or some snapshot carries the hash; that the image is the one of the instructions is part of `AgentContext.Valid` and used in `BootstrapOnTheRightOsVersion` |
| `AgentProtocol.ResetComesFirst` | cmd/agent/run.go:43-60 | no bootstrap and no upgrade happens in an iteration whose reply asks for a reset |
| `AgentProtocol.ReportedResetHappened` | internal/agent/phase/reset.go:83-124 | a reported reset succeeded before, and both the iteration that reset and the one that reported had marked the host for deletion |
| `AgentProtocol.ReportedInstallHappened` | internal/agent/phase/install.go:77-113 | an installation is reported only after the cloud-config and then the installation succeeded, as `ReportInstalled` proves for each call |
| `InstallPhase.InstallHandler.ReportInstalled` | internal/agent/phase/install.go:104-116 | the report is sent only in a loop that has done both one-time steps, and ends it exactly if it gets through |
| `AgentProtocol.ReportedBootstrapWasObserved` | internal/agent/phase/bootstrap.go:71-82 | a host is reported as bootstrapped only right after the sentinel file was seen, as `DoBootstrap` proves for each call |
| `AgentProtocol.ReportsLeaveTheirMark` | internal/agent/phase/common.go:11-44 | for every call of the agent that is a PATCH request, exactly what it leaves on the host: phase, condition, or label and condition |
| `AgentProtocol.ResetUsesItsRegistration` | internal/agent/phase/reset.go:93-111 | the system is reset with the instructions of the registration fetched two calls before |
| `AgentProtocol.CloudConfigOfItsRegistration` | internal/agent/phase/install.go:65-83 | the cloud-config applied is the one of the registration fetched two calls before |
| `AgentProtocol.InstallUsesItsRegistration` | internal/agent/phase/install.go:65-103 | the installation uses the instructions of the registration fetched last, with no failure since, and after some cloud-config was applied |
| `AgentProtocol.HostsAreCreatedAsRegistered` | internal/agent/phase/register.go:134-166 | a host is created under a hostname found unused right before, with the labels and annotations of the registration fetched in the same attempt |
| `AgentProtocol.BootstrapUsesWhatWasFetched` | internal/agent/phase/bootstrap.go:84-96 | the bootstrap configuration applied is the one fetched right before, after the sentinel file was found absent |
| `AgentProtocol.UpdateDoneWasAskedFor` | internal/agent/phase/upgrade.go:70-92 | an update in place is reported as done right after the condition got through, in an iteration whose reply said it was pending |
| `AgentProtocol.RebootsHaveACause` | cmd/agent/common.go:11-26 | every reboot of the run loop follows a successful upgrade or the application of a bootstrap configuration |
| `RunLoop.BootstrapHandler.DoBootstrap` | internal/agent/phase/bootstrap.go:71-107 | success means reported if the sentinel file is there, and fetched, applied and ready to reboot if it is absent; an unreadable file is an error, and an error means that nothing was applied or reported |
| `Agent.AgentContext.IsCorrelationIDFound` | internal/agent/plugin/elemental/elemental.go:396-434 | the search equals "some snapshot carries this id", for every iteration order and whichever snapshot is active |
| `Agent.AgentContext.ReconcileOSVersion` | internal/agent/plugin/elemental/elemental.go:360-394 | a reboot is asked for only after an upgrade that added the snapshot with the hash, which was not there before; otherwise, also after an error, no snapshot was added; without an error the OS version is then in place or not asked for |
| `Agent.AgentContext.RunUpgrade` | internal/agent/plugin/elemental/elemental.go:388-391 | a successful upgrade adds a snapshot with the hash and loses none |
| `RetryLoops.ProgressMeans` | internal/agent/phase/reset.go:64-126 | what every stage of a retry loop has done so far: the one-time steps once each and in order, no success reported yet, exactly the failures reported, each with its reason |
| `RetryLoops.ResetSessionMeans` | internal/agent/phase/reset.go:64-126 | a finished reset reset the system successfully exactly once, never tried again, and reported it once, as its last call |
| `RetryLoops.InstallSessionMeans` | internal/agent/phase/install.go:42-117 | a finished installation has exactly one successful InstallCloudInit followed by exactly one successful Install, and reported it once, as its last call |
| `RetryLoops.InstallFailuresMean` | internal/agent/phase/install.go:48-59 | which reason is reported for the failure of which call of the install loop |
| `ResetPhase.ResetHandler.Reset` | internal/agent/phase/reset.go:58-62 | reports the phase, then leaves a finished reset behind |
| `ResetPhase.ResetHandler.ResetLoop` | internal/agent/phase/reset.go:64-126 | terminates if finitely many calls fail, and makes only the calls of a reset loop until it is over |
| `ResetPhase.ResetHandler.ResetSystem` | internal/agent/phase/reset.go:93-111 | resets with the registration fetched in this iteration, and only after the host was marked for deletion in it |
| `ResetPhase.ResetHandler.TriggerReset` | internal/agent/phase/reset.go:35-56 | phase, trigger, and the condition that fits the outcome |
| `InstallPhase.InstallHandler.Install` | internal/agent/phase/install.go:36-40 | reports the phase, then leaves a finished installation behind |
| `InstallPhase.InstallHandler.InstallLoop` | internal/agent/phase/install.go:42-117 | terminates if finitely many calls fail, and makes only the calls of an install loop until it is over |
| `InstallPhase.InstallHandler.ApplyAndInstall` | internal/agent/phase/install.go:65-103 | does the steps that are still to be done; the registration is never read when unset, and the error reason fits the step that failed |
| `InstallPhase.InstallHandler.ReportFailure` | internal/agent/phase/install.go:48-59 | the reported reason is the one of the step that has just failed |
| `RegisterPhase.RegistrationHandler.RegistrationLoop` | internal/agent/phase/register.go:120-172 | ends with exactly one host, under the hostname and with the labels and annotations that the successful attempt obtained, or with one that existed |
| `RegisterPhase.RegistrationHandler.Register` | internal/agent/phase/register.go:37-48 | the context carries the registered hostname and the configuration of the same registration |
| `RegisterPhase.RegistrationHandler.Finalize` | internal/agent/phase/register.go:94-117 | hostname, configuration and identity are persisted in this order and to these places; on a failure exactly the calls before it were made |
| `RegisterPhase.PersistedMeans` | internal/agent/phase/register.go:94-117 | persisted means these five calls one after another: hostname, then the configuration at the path of the agent's configuration, then the identity as private.key in the working directory |
| `RegisterPhase.RegistrationHandler.FinalizeRegistration` | internal/agent/phase/register.go:50-92 | succeeds exactly if everything was persisted; the registration is reported as ready once and only then, and retried until it gets through |
| `RunLoop.OSVersionHandler.Reconcile` | internal/agent/phase/upgrade.go:31-94 | starts with the instructions; reboots only after the upgrade to them, a new snapshot and the announcement; done is reported last, for an update in place only after the condition got through; it fails only if a call failed or the instructions cannot be read, and reports that |
| `RunLoop.BootstrapHandler.Bootstrap` | internal/agent/phase/bootstrap.go:56-107 | the sentinel file decides: absent leads to fetch, apply and reboot, present to the report, unreadable to an error; only a call that failed is an error, it is reported, and nothing was applied |
| `RunLoop.RunRound` | cmd/agent/run.go:30-99 | what an iteration does, in the fields of its reply: nothing after a failed PATCH; only the trigger if needsReset; nothing if bootstrapped and no update in place is pending; otherwise the OS version is reconciled from the next call on, to a reboot, a reported failure or its end, and after its end the bootstrap is handled exactly if it is ready and not done |
| `RunLoop.Run` | cmd/agent/run.go:30-99 | for any number of iterations: the program exits exactly after a reboot or a triggered reset, does nothing afterwards but report the latter, and OS reboots are bounded by the instructions received |
| `RunLoop.HandlePost` | cmd/agent/common.go:11-26 | powers off or else reboots if asked to, and then exits whether or not the call succeeded |
| `ElementalOSPlugin.NormalisedText` | internal/agent/plugin/elemental/elemental.go:220-228 | the text starts with the marker and keeps everything from its first occurrence, or all of the input if there is none |
| `ElementalOSPlugin.NormalisingIsIdempotent` | internal/agent/plugin/elemental/elemental.go:220-228 | normalising twice equals normalising once |
| `ElementalOSPlugin.YipConfig.MoveBootToNetwork` | internal/agent/plugin/elemental/elemental.go:236-274 | fails exactly without boot stages, and otherwise edits the stages in place to the rewritten ones |
| `ElementalOSPlugin.RewrittenStages` | internal/agent/plugin/elemental/elemental.go:245-274 | no boot stage is left; the network stages are the boot stages, up to the command that creates the sentinel file at the end of the first if none mentions it; network.after is exactly the guarded self-delete; all other stages stay |
| `ElementalOSPlugin.MentionsSentinel` | internal/agent/plugin/elemental/elemental.go:249-256 | the two nested loops find a command with the sentinel path exactly if there is one |
| `ElementalOSPlugin.ElementalPlugin.ConvertBootstrapToYip` | internal/agent/plugin/elemental/elemental.go:219-282 | normalise, load, check, rewrite, print, with the error of the first step that fails |
| `ElementalOSPlugin.ConversionMeans` | internal/agent/plugin/elemental/elemental.go:219-282 | what is printed has the name that was loaded, its boot stages at the network stage and the self-delete after it; and which step fails when |
| `ElementalOSPlugin.ElementalPlugin.Bootstrap` | internal/agent/plugin/elemental/elemental.go:200-217 | writes the converted configuration only if none is there; every error leaves the files as they were |
| `ElementalOSPlugin.ElementalPlugin.InstallFile` | internal/agent/plugin/elemental/elemental.go:132-163 | the stored text is the print of a single boot stage that writes exactly this content to this path, with permission, owner and group, under the name made from the path; an error changes no file |
| `ElementalOSPlugin.ElementalPlugin.InstallHostname` | internal/agent/plugin/elemental/elemental.go:107-130 | the stored text is the print of a single boot stage that writes the hostname; an error changes no file |
| `ElementalOSPlugin.ElementalPlugin.Install` | internal/agent/plugin/elemental/elemental.go:173-198 | installs only from live media, with the four files of the registration, by path, appended to the remote list |
| `ElementalOSPlugin.SetFileNameOf` | internal/agent/plugin/elemental/elemental.go:165-171 | my-file.foo in any directory is written by set-my-file-foo.yaml |
| `ElementalOSPlugin.AgentConfigIsListed` | internal/agent/plugin/elemental/elemental.go:132-198 | the file written for the agent's configuration is the one that the installation lists, exactly if the configuration is called config.yaml |
| `ElementalOSPlugin.IdentityIsListed` | internal/agent/phase/register.go:112-115 | the file written for the identity is always the one that the installation lists |
| `ElementalOSPlugin.OtherConfigIsNotListed` | internal/agent/plugin/elemental/elemental.go:190-191 | with the configuration at /etc/elemental/agent/agent.yaml the installation lists a file that nobody wrote |
| `ElementalOSPlugin.ListedFilesExist` | internal/agent/plugin/elemental/elemental.go:190-191 | all files that the installation lists are among those that a registration and the cloud-config write, exactly if the agent's configuration is called config.yaml |

## Left out

- Kubernetes, controller-runtime and Cluster API libraries: a store with field-level merge patches stands for them; watches, requeue times, optimistic locks and the summary condition are not modelled.
- Condition messages, severities and timestamps: a condition is its status and reason.
- HTTP, JSON and YAML encodings, TLS, tokens and keys: a call succeeds or fails; authorisation is an answer of the environment.
- POST of hosts and GET of registrations and bootstrap secrets: an arbitrary registration or secret is answered, and hosts appear with arbitrary free-form labels.
- The remote tracker: an oracle that answers node updated, node not found or error.
- The dummy plugin, the cluster, template and registration controllers, and generated code: plumbing.
- The plugin's TriggerReset and Reset, the `elemental` CLI and shell commands: each is one call that succeeds or fails.
- Waiting times of the retry loops, and log messages.
- RunLoop.Run: the infinite loop is cut after an arbitrary number of iterations, because what is stated holds after each of them.
- PostInstall and PostReset actions of the `install` and `reset` commands: what is asked for depends on configuration only; what happens then is `RunLoop.HandlePost`.
- ManagementRuns.OwnershipIsForever: a name that registers again with `useExisting` is excluded by assumption, not proved absent.
- A reply lost after its effect on the server: the agent's termination proofs assume that a failed call had no effect. Without that assumption the reset loop need not end, because DeleteHost on a removed host keeps failing. The transition system does let a write land although the agent saw a failure.
- Deleted machines that never release their host: a machine without host reference ignores a host linked before a crash, and a missing host keeps the finalizer; both are modelled as they are.
- The provider ID condition: a machine can be ready while that condition is false, because a provider ID that is already set does not restore it.
- Null snapshots in the elemental state, and the difference between a null and an empty snapshot list.
- Agent.AgentContext.IsCorrelationIDFound: a snapshot without the label never equals a hash, because a hash is never the empty text.
- File contents as YAML: an arbitrary printer stands for the YAML library, and a failed write leaves no partial file.
- Bytes: texts are sequences of characters.
