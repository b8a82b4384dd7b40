# Cluster API controllers of KubeKey: a verified model

KubeKey's Cluster API providers are controllers that reconcile shared objects: they upgrade clusters in
place, scale K3s control planes, hand out hosts, bootstrap and clean them, and agree on tokens and
certificates. This project models that logic in Dafny 4.11 and proves what holds in every run of it.

A run is a finite sequence of actions on a shared object store. An action is one API call or one host
command (upgrade, K3s bootstrap, certificates) or one reconcile (rollout, host lifecycle). Writes may be
applied, rejected, or applied with the answer lost; controllers may crash anywhere; reconciles of
different objects interleave. Where the source changes objects step by step there is a class or a method
with loops, proved to compute the specification function or to be a run of the transition system, so that
the theorems are about it.

| file | subject |
|---|---|
| `Common` | datatypes that all models share |
| `UpgradeModel`, `UpgradeRuns` | in-place upgrade as a transition system, and its runs |
| `UpgradeSafety`, `UpgradeOwners` | the invariant and the order of the commands; no spurious rollout |
| `UpgradeMutex`, `UpgradeLockTheft` | the ConfigMap lock: mutual exclusion, exactly when it holds, with stale reads |
| `UpgradeProgress`, `UpgradeFinish` | no deadlock; exactly which upgrades can be completed |
| `UpgradeControllers`, `UpgradeCluster` | the code of both controllers, on top of the transition system |
| `Rollout`, `RolloutRuns` | K3s control-plane scaling: bounds, health gate, termination, completion |
| `Allocator`, `HostPhases`, `HostModel` | node allocation, spec validation, bootstrap phases, host lifecycle |
| `HostRuns`, `HostBootstrap` | one instance per clean host; bootstrap phases in order and once |
| `HostLeaks`, `HostMishaps` | ownership, and what breaks it |
| `K3sInit`, `K3sAgreement`, `K3sReconciler` | one initialising server and one token |
| `Certificates` | look up or generate CA secrets with racing callers |
| `FactParsers`, `Collections`, `Versions`, `SecretNames` | parsers, sort and filters, version gate, secret names |

`dafny verify dfyconfig.toml` checks everything.

## What turned out not to hold

Each of these is stated with a run that shows it and with the condition under which the property holds.

- The upgrade lock reads its ConfigMap from the manager's cache. An instance that gave the lock back and still
  sees its own old ConfigMap goes in beside the next holder, with no delete between the two (`StaleOwnLock`).
  The condition is that a read which shows the own name is right, and it is exact (`OwnReadIff`); a stale read
  that shows no lock, or the lock of another, does no harm.
- The upgrade lock looks its holder up as a `Machine` by the name of a `KKInstance`. Two active control planes
  exclude each other in all runs that meet the condition above if and only if the names of the active control
  planes and the name in a left-over lock are names of Machines (`MutexIff`). Otherwise one removes the lock of
  the other (`UnresolvedHolder`), or deletes it late while removing a left-over one (`UnresolvedLeftover`).
- An upgrade can get stuck for ever, with the cluster paused: when the KKInstance webhook refuses the requested
  version, which the KKCluster webhook does not check (`InadmissibleRequestSticks`); when clearing the
  annotations fails half way, because the webhook refuses to give an annotation back (`FailedClearSticks`);
  without an active worker or control plane (`EmptyPhaseBlocks`); with a control-plane Machine that has no
  active KKInstance and is not at the version; and with a lock left over by a Machine that is not an active
  control plane. `UpgradeFinishesIff` says that these are all the ways: in every other state some run without
  a further failure completes the upgrade, and in these no run ever removes the request.
- A list of upgraded machines that does not show a machine of each owner to be patched leads to a spurious
  rollout, and exactly such a list does (`ListIff`).
- `Cluster.spec.paused` is read from the cache as well. Who still sees the pause of the last upgrade skips that
  of the next one, and the machines are upgraded in a running cluster; exactly such a read leads to a spurious
  rollout (`PauseIff`). Who does not see the pause yet at the end skips the unpause: the upgrade ends and the
  cluster stays paused (`SkippedUnpause`).
- A KKMachine whose record of a new KKInstance is lost forgets it. When it is deleted, the instance keeps its
  host, uncleaned, for ever (`LostRecordOrphans`, `OrphanStays`). Without a lost record every instance is
  recorded, and the converse (`RecordedIffNoLoss`).
- A KKMachine being deleted deletes the instance of another one that meanwhile got the same node
  (`NameReuseDeletesStranger`). Exactly when no allocation takes a name still on record, every KKMachine
  deletes only its own (`ExclusiveIff`, `DeletesOwn`).
- A stale list together with a renamed node puts two instances on one host (`StaleListAndRename`). No two
  instances are ever on one host if and only if every allocation takes a host that no stored instance is on
  (`DistinctIff`); a complete list or a spec that still has the nodes in use makes sure of it
  (`OneInstancePerHost`). Instances without the cluster's labels block the allocator (`UnlabelledBlocks`).
- A K3sConfig that read "not initialised" can take the init lock after a joining config released it, and then
  overwrites the token (`LateLockHappens`, `LateLockBreaks`). Agreement holds exactly as long as no lock is
  created after initialisation (`AgreementIff`), in particular with one reconcile at a time
  (`SerialNeverLate`).
- Running `LookupOrGenerate` again on a list that generated something fails, because it creates the secret
  again (`Bootstrap.LookupOrGenerate`). A new list finds everything.
- The two fact parsers disagree for separators that begin or end with white space and for the empty one
  (`ParsersAgreeIff`).
- The version gate dereferences a missing node info after reporting it (`ValidateUpdate`).
- Two secret purposes do not parse back (`Exceptions`).

## Model

| member | source | states |
|---|---|---|
| `UpgradeSafety.StepKeeps` | controllers/kkcluster/kkcluster_controller_phases.go:38-167 | every single call or command of any controller keeps the protocol's invariant, whatever version is requested |
| `UpgradeSafety.CommandsAreOrdered` | controllers/kkinstance/kkinstance_controller_upgrade.go:66-175 | in every run no kubelet restarts and no worker upgrades before every control-plane machine got to the version by an upgrade or was there from the start, no control plane runs `upgrade node` before some `upgrade apply` completed or some was there from the start, and no host restarts its kubelet before its own upgrade |
| `UpgradeSafety.ReportedMeansUpgraded` | controllers/kkinstance/kkinstance_controller_upgrade.go:77-83 | an instance that reports the version it is asked for has its Machine at that version, and its host succeeded in the kubeadm upgrade |
| `UpgradeSafety.UpgradedOnce` | controllers/kkinstance/scale.go:101-103 | no reconcile of a control plane that begins with its Machine at the requested version ever logs `upgrade node` for it, whatever it sees and the others do meanwhile |
| `UpgradeOwners.NoSpuriousRollout` | controllers/kkcluster/kkcluster_controller.go:242-287 | in every run from a consistent cluster, with any failures and any number of requests, if every list of upgraded machines shows a machine of each owner to be patched and a read that shows the cluster paused before an upgrade is right, then while the cluster is not paused every control plane, MachineSet and MachineDeployment has the version of all its machines with an active KKInstance |
| `UpgradeOwners.ListIff` | controllers/kkcluster/patch.go:121-136 | after any such run a list meets its condition if and only if no continuation that meets both conditions has a spurious rollout |
| `UpgradeFinish.PauseIff` | controllers/kkcluster/kkcluster_controller_phases.go:47-55 | after any such run, for an upgrade that can go on and has an owner to patch, the read of the pause flag meets its condition if and only if no continuation that meets both conditions has a spurious rollout |
| `UpgradeFinish.SkippedUnpause` | controllers/kkcluster/kkcluster_controller_phases.go:47-55 | a read that shows no pause at the end of an upgrade lets it end with the cluster paused, and no run without a failure or a new request unpauses it |
| `UpgradeMutex.DeleteBetweenLocks` | controllers/kkinstance/kkinstance_init_mutex.go:51-139 | between two successful Lock returns by different instances lies a delete of the ConfigMap, from any state, unless one of them saw its own name in a ConfigMap that is no longer there |
| `UpgradeMutex.OneInZone` | controllers/kkinstance/scale.go:43-71 | if holder names resolve and every read of the lock that shows the own name is right, two instances are never both between Lock and release before the first control-plane machine has the new version, however stale all other reads of lock and machines are |
| `UpgradeLockTheft.StaleOwnLock` | controllers/kkinstance/kkinstance_init_mutex.go:55-74 | in every cluster with two active control planes and no lock, some run ends with Lock returning true to both in two successive calls, the second on a stale read of its own old ConfigMap, and both in the critical section |
| `UpgradeLockTheft.OwnReadIff` | controllers/kkinstance/kkinstance_init_mutex.go:55-74 | after any run with right reads of the own lock, for an upgrade that can go on, before the first patch and with another active control plane, a read that shows the own lock is right if and only if no continuation with such reads breaks mutual exclusion |
| `UpgradeLockTheft.UnresolvedHolder` | controllers/kkinstance/kkinstance_init_mutex.go:76-88 | a control plane whose name is not a Machine's is robbed of the lock: some run has two in the critical section before any patch |
| `UpgradeLockTheft.UnresolvedLeftover` | controllers/kkinstance/kkinstance_init_mutex.go:76-88 | the same with a left-over lock whose holder does not resolve, although all control planes do |
| `UpgradeLockTheft.MutexIff` | controllers/kkinstance/kkinstance_init_mutex.go:51-139 | with two active control planes, a version they can be asked for and a lock that lets them in, mutual exclusion holds in all runs in which reads of the own lock are right if and only if all holder names resolve |
| `UpgradeProgress.SomeReconcileHelps` | controllers/kkinstance/kkinstance_controller_upgrade.go:128-175 | while an instance has not reported, some instance alone and without a failure decreases (old control planes, old workers, old kubelets, unreported), whatever the others have in flight and also with a left-over lock that can be removed |
| `UpgradeProgress.AllCanReport` | controllers/kkinstance/kkinstance_controller_upgrade.go:66-126 | from every such state the instances can all reach and report the new version without a failure or crash |
| `UpgradeFinish.CanFinish` | controllers/kkcluster/kkcluster_controller.go:203-240 | from every state of the invariant in which nothing is in the way, with anything in flight, some run without failure, crash or stale read of lock and pause ends the upgrade with all versions at the target, and with the cluster paused exactly if its unpause was skipped before |
| `UpgradeFinish.UpgradeFinishesIff` | controllers/kkcluster/kkcluster_controller.go:255-285 | after any run, the request can be removed at all if and only if it is past its check, or there are an active control plane and an active worker, every instance has its annotation or may get it, the other control-plane machines are at the version, and the lock is open; and then it can be completed to a running cluster without a further failure if and only if its unpause was not skipped |
| `UpgradeFinish.FinishedIsConsistent` | controllers/kkcluster/patch.go:104-138 | and it is then completed with a consistent cluster, if the lists before covered the owners and no pause was skipped |
| `UpgradeFinish.StuckForever` | controllers/kkcluster/kkcluster_controller.go:279-284 | an upgrade that cannot go on never can again: the request stays and a paused cluster stays paused in every run |
| `UpgradeFinish.InadmissibleRequestSticks` | api/v1beta1/kkcluster_webhook.go:233-247 | a request that parses but that the webhook of some instance refuses pauses the cluster for ever |
| `UpgradeFinish.FailedClearSticks` | controllers/kkcluster/patch.go:58-83 | one rejected write while annotations are cleared leads to a state that cannot go on |
| `UpgradeFinish.EmptyPhaseBlocks` | controllers/kkcluster/kkcluster_controller_phases.go:83-85 | without an active control plane or worker the request is never cleared and a paused cluster stays paused |
| `UpgradeControllers.Controllers.Lock` | controllers/kkinstance/kkinstance_init_mutex.go:51-110 | true exactly when the lock is seen to be free and is created, or is seen to be its own; then the caller has it if a read of its own name was right; the lock afterwards in each case, also when stolen |
| `UpgradeControllers.Controllers.Unlock` | controllers/kkinstance/kkinstance_init_mutex.go:113-139 | removes the lock whoever holds it if the cache shows one, and says whether that is certain |
| `UpgradeControllers.Controllers.PatchMachineSpecVersion` | controllers/kkinstance/scale.go:150-154 | sets the version of the own Machine to the annotated one |
| `UpgradeControllers.Controllers.ApplyBehindLock` | controllers/kkinstance/scale.go:65-94 | after the lock: command, then patch; on an error the lock is released |
| `UpgradeControllers.Controllers.InPlaceUpgradeControlPlane` | controllers/kkinstance/scale.go:34-95 | command and patch happen exactly if no control plane is seen upgraded on the second look and Lock returns true, the patch only after the command; success keeps the lock if a read of the own lock was right; a control plane seen upgraded leaves all as it was |
| `UpgradeControllers.Controllers.InPlaceUpgradeScaleUp` | controllers/kkinstance/scale.go:97-125 | removes the lock, runs `upgrade node`, patches the Machine only after the command succeeded |
| `UpgradeControllers.Controllers.InPlaceUpgradeScaleUpWorker` | controllers/kkinstance/scale.go:127-148 | runs `upgrade node`, patches the Machine only after the command succeeded, and goes on to drain only after both |
| `UpgradeControllers.Controllers.KubeadmUpgrade` | controllers/kkinstance/kkinstance_controller_upgrade.go:128-175 | by the machines seen at the new version: a control plane takes the apply path if none is seen, may be drained if all are, and in between is left alone if its own Machine is there, else exactly unlocks, runs `upgrade node` and patches; a worker waits for all control planes, is upgraded while a worker is missing, and may be drained otherwise |
| `UpgradeControllers.Controllers.DrainAndRestart` | controllers/kkinstance/kkinstance_controller_upgrade.go:89-125 | the kubelet restarts only after a successful drain, and an error of the restart is not an error |
| `UpgradeControllers.Controllers.ReconcileInPlaceUpgrade` | controllers/kkinstance/kkinstance_controller.go:401-423 | marks the instance upgraded exactly when the kubelet read is at the version, and only reports then or without binaries; restarts only after a drain with all control planes seen there; one reconcile is a run of the model and, from a consistent start, ends with ordered commands and, while lists cover and no pause is skipped, without spurious rollout |
| `UpgradeCluster.ClusterController.PauseCluster` | controllers/kkcluster/kkcluster_controller_phases.go:38-63 | goes through if the cluster looks paused or a write on a current copy succeeds; if what it saw was right the cluster is then paused; nothing else changes |
| `UpgradeCluster.ClusterController.UnpauseCluster` | controllers/kkcluster/kkcluster_controller_phases.go:38-63 | the same for the end of the upgrade: not paused afterwards if it goes through and a pause was seen |
| `UpgradeCluster.ClusterController.AnnotateInstances` | controllers/kkcluster/kkcluster_controller_phases.go:65-105 | goes through exactly when every instance of the set is annotated or may be and its write succeeds; existing annotations stay, new ones are the new version and only where the webhook accepts it from the reported one |
| `UpgradeCluster.ClusterController.CheckInstances` | controllers/kkcluster/kkcluster_controller_phases.go:107-167 | goes through exactly when every instance is annotated, marked upgraded and reports the version of its annotation |
| `UpgradeCluster.ClusterController.ListUpgraded` | pkg/scope/cluster.go:134-149 | the machines at the new version that the list shows, and whether they cover the owners |
| `UpgradeCluster.ClusterController.PatchKcpSpecVersion` | controllers/kkcluster/patch.go:140-170 | patches the control plane exactly when it is found and owns a listed machine |
| `UpgradeCluster.ClusterController.PatchMachineSets` | controllers/kkcluster/patch.go:172-199 | goes through exactly when the patches of the MachineSets that own a listed machine succeed; these then have the new version and no other owner changed |
| `UpgradeCluster.ClusterController.PatchMachineDeployments` | controllers/kkcluster/patch.go:212-249 | goes through exactly when the patches of the MachineDeployments of a patched MachineSet succeed; these then have the new version, and no other owner changed |
| `UpgradeCluster.ClusterController.PatchResourceSpecVersion` | controllers/kkcluster/patch.go:104-138 | goes through exactly when the control plane is found and every patch that is due succeeds; every owner of a listed machine then has the new version |
| `UpgradeCluster.ClusterController.ClearAnnotations` | controllers/kkcluster/patch.go:50-83 | goes through exactly when the write for every annotated instance succeeds; no instance then has an annotation; others are untouched |
| `UpgradeCluster.ClusterController.PatchAnnotations` | controllers/kkcluster/patch.go:40-102 | the request goes exactly when there is one, all annotations are cleared and the last write takes effect |
| `UpgradeCluster.ClusterController.ReconcileInPlaceUpgrade` | controllers/kkcluster/kkcluster_controller.go:242-287 | goes through exactly when pause and unpause do, there are active control planes and workers, all instances had passed their check before, and the patches succeed; then all owners of listed machines have the new version |
| `UpgradeCluster.ClusterController.ReconcileNormal` | controllers/kkcluster/kkcluster_controller.go:203-240 | removes the request exactly when that goes through and the annotations are cleared; without a request only annotations change; is a run of the model: from a consistent start ordered commands and, while lists cover and no pause is skipped, no spurious rollout |
| `Rollout.ControlPlane.PreflightChecks` | controlplane/k3s/controllers/scale.go:132-179 | passes exactly when no machine is being deleted and every other one is healthy |
| `Rollout.ControlPlane.InitializeControlPlane` | controlplane/k3s/controllers/scale.go:36-63 | creates a machine exactly when there is none and the create succeeds |
| `Rollout.ControlPlane.ScaleUpControlPlane` | controlplane/k3s/controllers/scale.go:65-84 | creates one up-to-date machine exactly when nothing is being deleted, all are healthy and the create succeeds |
| `Rollout.ControlPlane.SelectMachineForScaleDown` | controlplane/k3s/controllers/scale.go:195-206 | any outdated machine with the delete annotation can be picked and nothing else if there is one, else any with the annotation, else any outdated one, else any |
| `Rollout.ControlPlane.ScaleDownControlPlane` | controlplane/k3s/controllers/scale.go:86-122 | marks the victim only, when nothing is being deleted and all others are healthy |
| `Rollout.ControlPlane.UpgradeControlPlane` | controlplane/k3s/controllers/upgrade.go:31-58 | scales up below replicas plus surge, else down; nothing without the rolling strategy |
| `Rollout.ControlPlane.Reconcile` | controlplane/k3s/controllers/k3scontrolplane_controller.go:324-364 | one reconcile changes the machines as the specification `Reconciled` says, and not at all if machines are outdated and the strategy is not a rolling update |
| `RolloutRuns.CreatesIff` | controlplane/k3s/controllers/k3scontrolplane_controller.go:324-364 | a reconcile creates a machine exactly when the create works, nothing is being deleted, all are healthy, and there are fewer than `replicas`, or in a rolling update fewer than replicas plus surge |
| `RolloutRuns.DeletesIff` | controlplane/k3s/controllers/scale.go:86-122 | a reconcile deletes a machine exactly when it is the one picked, the delete works, nothing is being deleted, all others are healthy, it may be ill itself, there are too many, and no machine is to be preferred because of its annotation or because it is outdated |
| `RolloutRuns.AnnotatedFirst` | controlplane/k3s/controllers/scale.go:195-206 | in every run no reconcile deletes a machine without the delete annotation while one with it is live, nor an annotated up-to-date one while an annotated outdated one is |
| `RolloutRuns.RolloutBounds` | controlplane/k3s/controllers/upgrade.go:48-53 | in every run from any machine set at most max(initial, replicas + surge) machines, at least min(initial, replicas, replicas + surge - 1) live ones, and never more than max(1, initial) deletions outstanding |
| `RolloutRuns.HealthGated` | controlplane/k3s/controllers/scale.go:96-113 | if machines do not fall ill by themselves, at most one live machine is ever unhealthy and after every deletion all live machines are healthy |
| `RolloutRuns.RolloutTerminates` | controlplane/k3s/controllers/k3scontrolplane_controller.go:325-361 | in every run from any machine set the number of reconciles that create or delete is bounded by the measure (unwanted machines, distance to the target) of the start |
| `RolloutRuns.CompleteIffQuiet` | controlplane/k3s/controllers/k3scontrolplane_controller.go:344-361 | a stable machine set is complete if and only if no reconcile changes it |
| `RolloutRuns.RolloutEnds` | controlplane/k3s/controllers/upgrade.go:31-58 | every run with more working reconciles at stable machine sets than that measure ends with exactly `replicas` machines, all up to date and none being deleted, whatever fails in between |
| `RolloutRuns.RolledOutStays` | controlplane/k3s/controllers/k3scontrolplane_controller.go:325-361 | and from then on no machine is created, deleted or outdated in any run, whatever happens to their health |
| `RolloutRuns.RolloutCompletes` | controlplane/k3s/controllers/upgrade.go:31-58 | such runs exist: from every machine set some run ends with exactly `replicas` healthy up-to-date machines |
| `Allocator.GetInstancesSpecByRole` | pkg/scope/cluster.go:172-189 | the nodes with the role in the order of their positions in the spec, each as often as it lists the role |
| `Allocator.AllInstances` | pkg/scope/cluster.go:192-224 | exactly the labelled instances without a foreign controller |
| `Allocator.GetUnassignedInstanceSpec` | controllers/kkmachine/helpers.go:87-120 | the first node, by position of the role and then of the node, whose internal address no labelled instance without a foreign controller has; none exactly when there is no such node |
| `Allocator.SelectIff` | controllers/kkmachine/helpers.go:87-120 | a selected node is in the spec, has a role and is free; selection fails if and only if there is no such node |
| `Allocator.ValidateClusterNodes` | api/v1beta1/kkcluster_webhook.go:195-231 | reports a fault if and only if it is there; an accepted spec has distinct names, addresses and internal addresses |
| `HostPhases.ReconcilePhases` | controllers/kkinstance/kkinstance_controller.go:371-387 | a phase is true afterwards exactly if it was, or if it and all before it were or worked; the host is touched exactly if some phase was not true |
| `HostBootstrap.PhasesStayPrefix` | controllers/kkinstance/kkinstance_controller_phase.go:35-56 | in every run of the host lifecycle the conditions of every instance come true in the order operating system, repository, binaries, container manager of Kubernetes, node, and it is running only with all true |
| `HostBootstrap.ConditionsStay` | controllers/kkinstance/kkinstance_controller_phase.go:111-133 | no condition is lost while the object lives |
| `HostBootstrap.PhaseRunsOnce` | controllers/kkinstance/kkinstance_controller_phase.go:111-310 | in every run a phase body succeeds at most once per object, plus once for every lost status patch |
| `HostBootstrap.BootstrapCompletes` | controllers/kkinstance/kkinstance_controller.go:371-387 | after any run a reconcile in which all outstanding phases work and whose status is stored ends with exactly the phases of the distribution true and the instance running |
| `HostBootstrap.RunningIsQuiet` | controllers/kkinstance/kkinstance_controller_phase.go:127-130 | with all phases true no reconcile touches the host again |
| `HostModel.Controllers.FindInstance` | controllers/kkmachine/kkmachine_controller.go:374-402 | no provider is no instance; a provider without its object is an error |
| `HostModel.Controllers.CreateInstance` | controllers/kkmachine/helpers.go:37-85 | creates exactly the selected node's instance, new and for this KKMachine, unless its name is taken; a missing version is a terminal failure |
| `HostModel.Controllers.ReconcileMachineNormal` | controllers/kkmachine/kkmachine_controller.go:241-309 | nothing for a failed, waiting or robbed KKMachine; the finalizer is stored before anything is created; one without instance gets the first free node's, recorded exactly if create and final patch succeed |
| `HostModel.Controllers.ReconcileMachineDelete` | controllers/kkmachine/kkmachine_controller.go:194-239 | deletes the recorded instance while it exists and is not clean; the KKMachine goes exactly when there is none and the patch is stored |
| `HostModel.Controllers.ReconcileInstanceNormal` | controllers/kkinstance/kkinstance_controller.go:347-387 | the finalizer is stored before any phase touches the host; a phase that comes true is stored with the status; a host on which a phase ran needs all cleanup steps |
| `HostModel.Controllers.ReconcileInstanceDelete` | controllers/kkinstance/kkinstance_controller.go:316-345 | the object goes exactly after all five cleanup steps and a stored patch; otherwise what was cleaned is recorded |
| `HostModel.Controllers.ReconcileDeletingBootstrap` | controllers/kkinstance/kkinstance_controller_phase.go:72-109 | a cleanup step counts exactly if it and all before it work, in the order reset, network, files, reload, K3s |
| `HostRuns.CleanupCleans` | controllers/kkinstance/kkinstance_controller_phase.go:72-109 | a cleanup that reports success leaves nothing on the host |
| `HostRuns.HostRun` | controllers/kkinstance/kkinstance_controller.go:316-385 | in every run a host that is not clean is held by an instance with a finalizer, and every instance shares a role with its KKMachine |
| `HostRuns.DistinctIff` | controllers/kkmachine/helpers.go:95-118 | no two instances are on one host at any time of a run if and only if every allocation takes a host that no stored instance is on |
| `HostRuns.OneInstancePerHost` | controllers/kkmachine/helpers.go:95-118 | which is so if each allocation sees all instances or finds the nodes in use in the spec; and every instance has a role of its KKMachine |
| `HostRuns.EditsAreSafe` | api/v1beta1/kkcluster_webhook.go:195-231 | accepted edits that leave the nodes in use alone are enough, with lists as stale as may be |
| `HostRuns.CleanAllocation` | controllers/kkmachine/helpers.go:37-120 | after any run, an allocated host that no instance is on is clean, and has a role of the KKMachine |
| `HostLeaks.RecordedIffNoLoss` | controllers/kkmachine/kkmachine_controller.go:298-314 | every instance is recorded in its own KKMachine at all times if and only if no reconcile that created one lost its answer or final patch |
| `HostLeaks.MachineLeavesNothing` | controllers/kkmachine/kkmachine_controller.go:194-239 | a KKMachine goes only after its recorded instance; without lost records nothing of it is left and every unclean host has a live KKMachine |
| `HostLeaks.OrphanStays` | controllers/kkinstance/kkinstance_controller.go:240-248 | an instance with a finalizer whose KKMachine is gone is never removed, by any run |
| `HostLeaks.ExclusiveIff` | controllers/kkmachine/kkmachine_controller.go:392-398 | the instance a KKMachine records is its own at all times if and only if no allocation takes a name still on record |
| `HostLeaks.DeletesOwn` | controllers/kkmachine/kkmachine_controller.go:216-239 | then a KKMachine's reconcile deletes no instance but its own |
| `HostLeaks.AllocatesIff` | controllers/kkmachine/helpers.go:87-120 | without failures, if every instance is labelled and the spec has the nodes in use, a waiting KKMachine gets a recorded instance if and only if a node with one of its roles is free |
| `HostMishaps.LostRecordOrphans` | controllers/kkmachine/kkmachine_controller.go:374-386 | in every cluster a lost record and a deletion lead to an orphan on an unclean host |
| `HostMishaps.NameReuseDeletesStranger` | controllers/kkmachine/kkmachine_controller.go:216-239 | in every cluster some run ends with a KKMachine deleting another's instance that nobody asked to delete |
| `HostMishaps.StaleListAndRename` | controllers/kkmachine/helpers.go:95-107 | a stale list and a renamed node put two instances on one host |
| `HostMishaps.UnlabelledBlocks` | pkg/scope/cluster.go:195-200 | an instance without the cluster's labels makes the allocator choose its node again: another node with the role is free, the list is exact, nothing fails, and the KKMachine still gets no instance |
| `K3sReconciler.Reconciler.Lock` | bootstrap/k3s/pkg/locking/control_plane_init_mutex.go:50-109 | true exactly when free and created, or its own; the lock afterwards in each case |
| `K3sReconciler.Reconciler.Unlock` | bootstrap/k3s/pkg/locking/control_plane_init_mutex.go:112-138 | removes the lock whoever holds it, and says whether that is certain |
| `K3sReconciler.Reconciler.InitBehindLock` | bootstrap/k3s/controllers/k3sconfig_controller.go:300-372 | certificates, then token, then data with that token; on an error the lock is released |
| `K3sReconciler.Reconciler.HandleClusterNotInitialized` | bootstrap/k3s/controllers/k3sconfig_controller.go:266-375 | when exactly the config gets ready, with which token, data and lock; without the lock nothing but the lock changes |
| `K3sReconciler.Reconciler.StoreBootstrapData` | bootstrap/k3s/controllers/k3sconfig_controller.go:590-631 | the data is stored before the config is ready |
| `K3sReconciler.Reconciler.Join` | bootstrap/k3s/controllers/k3sconfig_controller.go:633-671 | a config gets ready exactly when the writes work and it has a token file, or an endpoint and a token of the user's, a learnt one or that of the secret; its data carries that token |
| `K3sReconciler.Reconciler.Reconcile` | bootstrap/k3s/controllers/k3sconfig_controller.go:222-264 | a ready config is left alone; another gets ready exactly when its join or its init goes through; with one reconcile at a time the cluster stays in agreement |
| `K3sAgreement.OneInitOneToken` | bootstrap/k3s/controllers/k3sconfig_controller.go:290-372 | in every run without a lock created after initialisation, at most one config is ready with init data, the token secret is its token, and all others joined with it |
| `K3sAgreement.TokenStays` | bootstrap/k3s/controllers/k3sconfig_controller.go:507-548 | from the first ready init config on, its token is the token for good |
| `K3sAgreement.CanJoin` | bootstrap/k3s/controllers/k3sconfig_controller.go:633-671 | from every initialised state of the invariant some run without failures makes any idle config ready, with its user's token or that of the secret, and changes nothing of the others |
| `K3sAgreement.CanInit` | bootstrap/k3s/controllers/k3sconfig_controller.go:266-375 | before that, some run without failures lets an idle control plane initialise the cluster, if nobody else holds the lock |
| `K3sAgreement.AgreementIff` | bootstrap/k3s/controllers/k3sconfig_controller.go:241-249 | the next call creates a late lock if and only if some continuation breaks the agreement |
| `K3sAgreement.LateLockHappens` | bootstrap/k3s/controllers/k3sconfig_controller.go:286-291 | a late lock is reachable without stale reads or failures, in every cluster with two such control planes and a third config |
| `K3sAgreement.SerialNeverLate` | bootstrap/k3s/controllers/k3sconfig_controller.go:241-249 | with one reconcile at a time no lock is created after initialisation |
| `Certificates.WorldRun` | util/secret/certificates.go:155-166 | under any interleaving, stale read or failed create no stored secret changes |
| `Certificates.SuccessAgrees` | util/secret/certificates.go:169-186 | a call that succeeded holds the stored pair of every purpose, any two agree, and only the user-supplied pair may be missing |
| `Certificates.CanSucceed` | util/secret/certificates.go:169-186 | from every store whose secrets have certificates, whatever other calls are under way, some run of a new call succeeds and stores every purpose that is not user-supplied |
| `Certificates.Bootstrap.Lookup` | util/secret/certificates.go:96-121 | fills in exactly what is stored; succeeds exactly when every read works, every secret found has a certificate and every external certificate is found |
| `Certificates.Bootstrap.Generate` | util/secret/certificates.go:142-152 | generates what is missing and nothing else, never the user-supplied pair; fails exactly if some generation that is due does |
| `Certificates.Bootstrap.SaveGenerated` | util/secret/certificates.go:155-166 | succeeds exactly when no generated certificate's secret is there, no two share a name and every create succeeds; each is then stored with key, certificate and owner; nothing stored changes |
| `Certificates.Bootstrap.LookupOrGenerate` | util/secret/certificates.go:169-186 | the exact condition for a new list to succeed, with everything but the user-supplied pair stored; success holds what is stored; with all stored a new list generates nothing; a repeated list fails exactly if it has something generated |
| `FactParsers.ConvertBytesToMap` | feature/pkg/connector/helper.go:34-48 | a key has exactly the value that the last line with this key gives it, each line cut at its first separator and trimmed |
| `FactParsers.ConvertBytesToSlice` | feature/pkg/connector/helper.go:65-94 | the groups of entries |
| `FactParsers.ParsersAgreeIff` | feature/pkg/connector/helper.go:34-94 | the groups laid over each other are the map, on every input, if and only if the separator neither begins nor ends with white space and is not empty, or has a line break |
| `FactParsers.GroupsNotEmpty` | feature/pkg/connector/helper.go:80-91 | no group is empty, for any separator |
| `FactParsers.BlankLineSeparates` | feature/pkg/connector/helper.go:80-84 | lines before and after a blank one are parsed on their own |
| `FactParsers.OneGroupIsMap` | feature/pkg/connector/helper.go:73-79 | lines without a blank one make one group, the map of the trimmed lines, and of the lines for separators without outer white space |
| `Collections.LessTotal` | util/collections/kkinstance_collection.go:35-40 | the order by creation time and name is strict and total |
| `Collections.SortedUnique` | util/collections/kkinstance_collection.go:91-98 | a set of instances has only one sorted list |
| `Collections.SortedByCreationTimestamp` | util/collections/kkinstance_collection.go:91-98 | the result is that list, oldest first and names in lexicographic order, whatever the order of the map |
| `Collections.Oldest` | util/collections/kkinstance_collection.go:137-142 | the instance created before all others, or with the least name among those created then, or none |
| `Collections.Newest` | util/collections/kkinstance_collection.go:145-150 | the instance created after all others, or with the greatest name among those created then, or none |
| `Collections.Filter` | util/collections/kkinstance_collection.go:115-129 | exactly the instances that match all filters, under their names |
| `Collections.AndMeans` | util/collections/kkinstance_filters.go:33-42 | And is true exactly when every filter is |
| `Collections.OrMeans` | util/collections/kkinstance_filters.go:45-54 | Or is true exactly when some filter is |
| `Collections.UpgradePartition` | controllers/kkcluster/kkcluster_controller.go:261-270 | the two annotation phases split the active owned instances without rest or overlap |
| `Versions.ValidateUpdate` | api/v1beta1/kkinstance_webhook.go:58-106 | accepted exactly when nothing is requested, or the major is the same and the minor is one more, or the same with a higher patch; which errors exactly; panics exactly without node info |
| `Versions.ChainIncreases` | api/v1beta1/kkinstance_webhook.go:96-98 | along accepted upgrades the version strictly increases |
| `Versions.ChainMajor` | api/v1beta1/kkinstance_webhook.go:96-98 | the major version never changes and the minor never falls |
| `Versions.ChainVisits` | api/v1beta1/kkinstance_webhook.go:96-98 | every minor version on the way is visited |
| `Versions.ChainLength` | api/v1beta1/kkinstance_webhook.go:96-98 | a chain over d minor versions has at least d upgrades |
| `SecretNames.RoundTripIff` | util/secret/secret.go:52-71 | a name parses back if and only if its purpose is listed and has no dash |
| `SecretNames.AcceptedIff` | util/secret/secret.go:58-71 | a string is accepted if and only if it is the name of some cluster and such a purpose |
| `SecretNames.ListedRoundTrip` | util/secret/consts.go:53-56 | every listed purpose but one parses back, for every cluster |
| `SecretNames.NamedRoundTrip` | util/secret/consts.go:25-56 | kubeconfig, ca, etcd, sa and proxy parse back, for every cluster |
| `SecretNames.Exceptions` | util/secret/consts.go:39-51 | `apiserver-etcd-client` and the unlisted `cca` never parse |

## Assumptions

- Names in the upgrade, rollout and K3s models are only compared for equality, and numbers stand for them. So do
  they for version strings, with an arbitrary parser to major, minor and patch for the webhooks.
- Reconciles of one object are serialised, and a reconcile reads its own object as stored. These other reads may
  be stale: the machines seen at the new version, by instances and by the cluster controller; the upgrade lock,
  which may look missing or show any name it had since the start; the pause flag; the list of instances that
  the allocator sees; the initialised condition; certificate secrets.
- Assumed to be current are: the KKInstances (annotation, reported version, condition) that the cluster
  controller reads, its control plane, MachineSets and MachineDeployments with their owner references, and
  the lookup of a lock holder as a Machine. An update of a stale copy is a rejected write.
- The K3s managers read ConfigMaps and Secrets without a cache (bootstrap/k3s/main.go:104-107), so the K3s lock and
  token are read as stored; the manager of the upgrade does not (main.go:88-99).
- Upgrades: the set of machines, instances and owners is fixed; nobody else edits pause, annotations or
  versions, and a request is not changed before it is removed. At the start the hosts run and the instances
  report the versions of their Machines. Any version that parses may be requested.
- The removal of the upgrade request takes effect with the deferred patch at the end of the reconcile: the
  patch helper made after the deletion compares equal objects (controllers/kkcluster/patch.go:86-99).
- Host lifecycle: KKMachine names are not used twice; a host is its internal address; nobody removes
  finalizers, or edits the address of a stored instance.
- K3s: a control-plane Machine that may hold the init lock exists; the condition becomes true only after a
  config was ready with init data; secrets are not edited by hand.

## Left out

- SSH commands, kubeadm, drain, cordon, downloads: each is a step that succeeds or fails; only its effect on
  versions, order and cleanliness is modelled. The binaries condition is not.
- controller-runtime, patch helpers, caches, watches and requeue delays: the object store and the stated
  freshness of reads stand for them.
- Key generation, cloud-init rendering, JSON and YAML: opaque values.
- `adoptMachines`, `reconcileDelete` and status of the K3sControlPlane: they would add easy members only.
- Pivot and restore (bootstrap/k3s/controllers/k3sconfig_controller.go:228-234): excluded.
- Ready state, addresses and conditions that a KKMachine copies from its instance: only reported.
- The choice of a failure domain is some member of the candidates; `MachinesNeedingRollout` is the outdated
  machines not being deleted. Replica arithmetic is unbounded, not 32-bit.
- Nil entries in instance collections are not modelled.
- Sort: stands for the library's in-place sort; sortedness and contents are proved, the algorithm is not the library's.
- ConvertBytesToMap: works on the lines the scanner returns; splitting bytes into lines and the scanner's limit on line length are not modelled.
- ConvertBytesToSlice: as above.
- OwnReadIff: says nothing of upgrades that cannot go on, where the other control planes may never come to the lock.
- PauseIff: says nothing of upgrades that cannot go on or that have no owner to patch.
- MutexIff: says nothing of a left-over lock that names a Machine other than an active control plane; nobody then passes the lock.
- AllocatesIff: assumes that every instance carries the cluster's labels; UnlabelledBlocks shows why.
- OneInitOneToken: assumes that no lock is created after initialisation; AgreementIff shows that this is exact.
