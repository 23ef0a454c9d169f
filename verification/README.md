# ByotHost and ByotMachine: claims, adoption, upgrades and releases

A Dafny model of the two reconcilers that turn bare Talos machines (`ByotHost`) into cluster
nodes (`ByotMachine`), with proofs about every run of any number of them: stale reads,
unversioned merge patches, conflicts, lost answers and crashes between any two calls.

`dafny verify dfyconfig.toml` checks everything.

## How it is built

* `Common`, `Records`: the two stored records and the merge patch that commits only the
  fields that differ from the snapshot it was opened on.
* `HostProtocol`, `MachineProtocol`: each reconciler as a control automaton, one API call or
  RPC at a time. `Move` says which call comes next and what a patch must carry.
* `World`: every host with the full history of its record, the physical machine behind it
  (config on disk, boot number, running and installed version, image) and its reconciler;
  every machine with its record and reconciler; the operator. `Next` performs one step,
  `Play` a run, `Init` says where runs begin.
* `HostHistory`, `ResolvedHosts`, `UpgradeRecord`: the inductive invariants of every run.
  `Ownership`, `Attempts`: those of every run in which no release clears the claim of another
  machine, which releaseHost does not check. `Ownership` is a rely/guarantee argument: a claim
  protects its host from everybody but its owner.
* `Reconciles`: what must have been answered earlier in the same reconcile, and what was
  installed, polled, written ahead and recorded, all read off the log.
* `ClaimProperties`, `AdoptionProperties`, `UpgradeProperties`, `Resume`: the results. Where the code does not
  guarantee a property, an equivalence over every run says exactly which step breaks it, and
  `Counterexamples` and `UpgradeCounterexamples` construct a run that takes that step, from an
  initial world on. `Runs` is what those runs are built with; `Walkthrough` is the intended run
  from discovery to a completed upgrade.
* `Lifecycle`: one host under reconciles that do not overlap, and the availability label as an
  index.
* `Cluster`, `Objects`, `ClaimSelection`, `HostReconciler`, `MachineReconciler`: the reconcilers
  as the Go code has them, classes whose methods assign fields and make calls. `ApiServer` lets
  everybody else take any steps before each call. The contracts say from which control point to
  which a method takes its reconcile, with the in-memory object equal to the committed record
  (`At`), and which acts it performs on which answers (`Trail`). So the methods make only the
  calls the automata allow, patch exactly the prescribed records, and what they do is a run.
* `ReconcilePaths`: those acts for the machine reconciler, from a whole reconcile down to each
  patch, written in the fields of the records and without the automaton.
* `Discovery`, `DiscoveryProperties`, `MachineConfig`: capacities, disks, labels, and the
  in-place rewriting of the machine config.

Assumptions, all in `World.Init` and `World.Possible`: a machine reads its own record fresh and
reconciles of one object are serial; UIDs are unique, host records are not recreated under an
old name and public IPs are distinct and not empty; the byot finalizer is the only one; the
generation of a record never decreases and grows when its desired version changes. Maintenance
answers only when nothing is configured; credentials are accepted only by a machine that carries
their bundle; a reset wipes and reboots; a version changes only by an install and a reboot.

## Where code and documentation differ

The model follows the code.

* `README.md` says a release always resets the host. The code does not when the host already
  answers in maintenance (`ReleaseResetsOnce`).
* The comment at `pkg/controller/byotmachine_controller.go:972` says a generation bump retriggers
  an evicted machine. Once Ready is cleared nothing ever does (`FailedForGood`).
* `README.md` says the availability label is set only in phase Available. A claim leaves it on the
  Claimed host; only the other direction holds (`LifeIsSteady`).
* The comment at `pkg/controller/byothost_controller.go:360-361` says that a failed discovery keeps
  an Unavailable host Unavailable. The code makes every such host Probing (`LifeIsTold`).
* A claim is safe because of `claimRef`, not because of the phase: a host patch computed before
  the claim can overwrite the phase (`PhasePartsFromClaim`).
* Patches of one reconcile are all computed against the snapshot of its start. Values get lost
  exactly when that snapshot already shows them: the Failed of a version probe that exhausts its
  retries right after a retrigger, and a boot-id equal to that of the previous attempt (`Syncs`);
  a failure count of one (`FailureIsCounted`); and a host given up and claimed again
  (`OrphaningSteps`).
* The comments at `pkg/controller/claim.go:25-30` and `:82-89` say that a successful claim sets the
  resolved host and that a host still claimed is not given up. A crash between claim and record, a
  record that the patch leaves out and a stale read each leave a claim that nothing releases
  (`OrphaningSteps`).

## Model

| member | source | states |
|---|---|---|
| Records.PatchHostOnCurrent | pkg/controller/byothost_controller.go:482-490 | a host patch opened on the current version stores exactly the in-memory copy, labels included |
| Records.EmptyPatchKeeps | pkg/controller/byothost_controller.go:482-490 | a host patch that changes nothing keeps the stored record, whatever others have made of it |
| Records.PatchLabelsByKey | pkg/controller/byothost_controller.go:482-490 | labels merge key by key: what the copy shares with the snapshot stays as stored, anything else takes the copy's value or goes with it |
| Records.PatchMachineMerges | pkg/controller/byotmachine_controller.go:857-866 | the same two laws for the machine's patch; only a new provider id increments the generation |
| MachineProtocol.Candidates | pkg/controller/claim.go:267-295 | the kept hosts are exactly the listed ones that are Available, probed, unclaimed or self-claimed, and have the wanted failure domain or none, or none is wanted |
| MachineProtocol.LeastCandidate | pkg/controller/claim.go:230-237 | the selected host is a candidate, no candidate has a smaller name, and none is selected only when there is none |
| Lifecycle.SelectionIs | pkg/controller/claim.go:230-295 | in terms of the records alone: none is selected exactly when every Available, probed, unclaimed or own host has another failure domain than the wanted one; a selected host has the least name of the others |
| Common.StringLessIs | pkg/controller/claim.go:235 | the order on names is that of the first character that differs, a prefix first |
| HostHistory.ReportedKeepsClaim | pkg/controller/byothost_controller.go:336-349 | no report of the host reconciler changes the claim of the record it started from |
| HostHistory.NoFinalizerPut | pkg/controller/claim.go:330-337 | the finalizer update after a claim is never needed: a claimable version already carries it |
| HostHistory.RecordedAlways | pkg/controller/claim.go:297-340 | invariant of every run: phase, claim and finalizer agree in every stored version, claims change only from or to nobody, and what reconcilers remember of hosts is some stored version |
| ClaimProperties.ClaimExclusivity | pkg/controller/claim.go:305-325 | in every run no write turns one machine's claim into another's; Releasing implies no claim and Claimed a claim in every version ever stored |
| ClaimProperties.ClaimWriters | pkg/controller/claim.go:297-410 | in every run only claimCAS sets a claim, on a free host or its own; only releaseHost clears one, that of the record it read; the clear in reconcileReleasing never changes anything |
| ClaimProperties.ClaimedRecordStays | pkg/controller/byothost_controller.go:173-192 | every claimed version carries the finalizer, and a removed record was unclaimed in its last version even when the deleting reconcile read a stale copy |
| ClaimProperties.AvailableIsAnswered | pkg/controller/byothost_controller.go:220-358 | whenever the stored phase becomes Available, maintenance answered earlier in the reconcile that writes it |
| ClaimProperties.ApplyTargets | pkg/controller/byotmachine_controller.go:627-711 | every successful apply hits a machine in maintenance, one with this cluster's bundle, or one with the referenced bundle that did not answer in maintenance and refused both bundles in the same reconcile; a worker's first apply follows a ready control plane |
| ClaimProperties.ForeignNeverOverwritten | pkg/controller/byotmachine_controller.go:2196-2231 | if a machine that refused the referenced bundle in this reconcile would refuse it still, a successful apply hits an unconfigured machine or one with this cluster's bundle |
| Reconciles.EvidentAlways | pkg/controller/byotmachine_controller.go:663-711 | in every run each apply, release, eviction and link is preceded, in the log of its own reconcile, by the answers that authorise it |
| AdoptionProperties.AppliesWhatChanged | pkg/controller/byotmachine_controller.go:566-578 | in every run, unless the reconcile started on Failed, its upgrade and its link are reached only by a machine that is ready and whose config hash is that of the reconcile, in memory as in the store; a config is applied, again or for the first time, only when it is not, and never by a reconcile that started on Failed |
| Ownership.OwnedAlways | pkg/controller/claim.go:25-80 | invariant of every run in which no release clears another machine's claim, however often releases are repeated: a machine that has not released owns every host it has resolved, is recording or has acted on |
| ClaimProperties.CleanReturn | pkg/controller/claim.go:342-410 | in those runs a host whose disk holds machine u's config is claimed by u, so an unclaimed host carries no applied config |
| ClaimProperties.ResolvedIsOwned | pkg/controller/claim.go:57-74 | stored resolvedHost = h implies that h's current claim is this machine's |
| ClaimProperties.ResolvedApart | pkg/controller/byotmachine_controller.go:2114-2121 | two machines that have not released never resolve the same host or share a providerID |
| ClaimProperties.LosesClaim | pkg/controller/claim.go:346-410 | in every run a machine loses a claim if and only if a release write clears it; one that has not released itself, if and only if another machine's does |
| ClaimProperties.FairReleaseSparesOthers | pkg/controller/claim.go:356-404 | in every run a release write leaves the claims of all other machines alone if and only if the record it releases carries no claim or the releaser's own, which releaseHost does not check |
| ClaimProperties.WritesTakeTurns | pkg/controller/claim.go:297-410 | every versioned write of a machine turns the current version of the host's record into what the claim, release or mirror turn of its life makes of it |
| Resume.BundledAlways | pkg/controller/byotmachine_controller.go:663-667 | a config applied by a machine carries its cluster's bundle, in every run |
| Resume.InterruptedAdoptionResumes | pkg/controller/byotmachine_controller.go:1255-1335 | an adoption cut short between apply and status patch is completed by every next reconcile that nothing disturbs and whose answers are current and not lost, through the bundle match and without touching any host |
| Resume.CanResume | pkg/controller/byotmachine_controller.go:663-711 | such a reconcile is possible, whatever the config hash and the answer of the installer |
| Counterexamples.CleanReturnBreaks | pkg/controller/claim.go:368-409 | in every run, a step breaks the clean return if and only if it is a release write on a host configured since the probe, or an apply to a host another machine has taken |
| Counterexamples.TheftBreaksCleanReturn | pkg/controller/claim.go:356-404 | as long as no release has cleared another machine's claim, a step breaks the clean return if and only if it is a release write of a record with another machine's claim whose config is on the disk |
| Counterexamples.SecondReleaseSteals | pkg/controller/claim.go:356-384 | a run in which a release repeated after a failed finalizer update clears another machine's claim and leaves its config on an Available host |
| Counterexamples.PhasePartsFromClaim | pkg/controller/byothost_controller.go:399-439 | in every run, a claimed host leaves phase Claimed if and only if a host patch carries a phase computed from an older version |
| Counterexamples.ClaimedYetUnavailable | pkg/controller/byothost_controller.go:399-439 | a run that takes such a step: claimed after its last probe failed, a host is patched to Unavailable |
| ResolvedHosts.RememberedAlways | pkg/controller/claim.go:57-80 | invariant of every run: the stored resolved host against the one in memory at each control point, and no claim of a machine that has given up its finalizer on the host it stored |
| ResolvedHosts.RecordedHost | pkg/controller/claim.go:57-71 | in every run the host a machine has stored or works on is the one whose claim it recorded last |
| ResolvedHosts.OrphaningSteps | pkg/controller/claim.go:57-152 | in every run a step leaves a claim that nobody remembers if and only if it is a crash between claim and record, a record that the patch leaves out because the snapshot shows that host already, or giving up a host that is still claimed |
| ResolvedHosts.OrphanFreeRuns | pkg/controller/claim.go:57-152 | no state of a run has such a claim if and only if no step of it is one of those |
| ResolvedHosts.NoClaimOutlives | pkg/controller/claim.go:57-152 | in the runs without such a step every claimed host's machine exists and has stored the host or is about to |
| Counterexamples.CrashOrphansClaim | pkg/controller/claim.go:57-71 | a run in which a crash between the claim and its record leaves the host claimed by a machine that is gone |
| Counterexamples.RecordIsSwallowed | pkg/controller/claim.go:57-71 | a run in which a host given up by a stale read and claimed again in the same reconcile is claimed but not recorded |
| UpgradeRecord.Syncs | pkg/controller/byotmachine_controller.go:857-866 | every patch leaves the store with the in-memory upgrade and adoption state, but for two values that its fixed snapshot swallows: exactly when it shows Failed already, and exactly when it shows the same boot-id already |
| UpgradeRecord.BookedAlways | pkg/controller/byotmachine_controller.go:732-777 | invariant of every run: generation bookkeeping, write-ahead mark and failure count of the stored record against the calls made so far |
| UpgradeProperties.InstallOncePerGeneration | pkg/controller/byotmachine_controller.go:759-789 | the generations of successive upgradeMachine calls strictly increase, with crashes anywhere |
| UpgradeProperties.InstallIsWrittenAhead | pkg/controller/byotmachine_controller.go:928-946 | at each upgradeMachine call the stored record says InFlight for that generation and has no boot-id, and no earlier call was for it |
| UpgradeProperties.FailsOnlyAfterThreshold | pkg/controller/byotmachine_controller.go:1086-1091 | an upgrade in flight fails by polling only after at least the threshold of failed polls since it was written ahead |
| UpgradeProperties.FailureIsCounted | pkg/controller/byotmachine_controller.go:848-891 | a failed probe raises the stored count by one, exactly unless the reconcile has just retriggered a failure with count one; it stops exactly at the threshold |
| UpgradeProperties.ThresholdStoresFailed | pkg/controller/byotmachine_controller.go:867-888 | past the threshold the only act besides a crash stores Failed, exactly unless the reconcile has just retriggered |
| UpgradeProperties.CountIsStored | pkg/controller/byotmachine_controller.go:857-865 | while InFlight the stored count is the number of failed polls patched in a row |
| UpgradeProperties.PollingStops | pkg/controller/byotmachine_controller.go:1041-1091 | polling goes on to fail exactly when the threshold of failed polls in a row is reached |
| UpgradeProperties.FailedForGood | pkg/controller/byotmachine_controller.go:742-757 | Failed with Ready cleared is never left, and no later reconcile applies a config or calls upgradeMachine |
| UpgradeProperties.EvictionHolds | pkg/controller/byotmachine_controller.go:967-1026 | such a machine's host was wiped, stays claimed by it and carries no applied config |
| UpgradeProperties.ReleaseResetsOnce | pkg/controller/claim.go:368-404 | a release that stores Available found maintenance and did not reset; any other stores Releasing after a reset |
| Attempts.FollowedAlways | pkg/controller/byotmachine_controller.go:901-965 | invariant of every run in which no release clears another machine's claim: what the current attempt, eviction and adoption have physically done to the host |
| UpgradeProperties.BootIdIsAfterInstall | pkg/controller/talos_apply.go:249-276 | while InFlight a stored boot-id belongs to a boot in which this attempt's install was over, and the host holds that image |
| UpgradeProperties.CompletesOnItsHost | pkg/controller/byotmachine_controller.go:1041-1120 | in every run an upgrade in flight is completed on the host of its attempt if and only if the machine last recorded the host on which it wrote the upgrade ahead |
| UpgradeProperties.CompletionIsSound | pkg/controller/byotmachine_controller.go:1041-1187 | leaving InFlight as complete on the host it was written ahead on means the attempt's image was installed, the host rebooted since and runs it; the applied ref names that image exactly when the desired version was not edited |
| UpgradeCounterexamples.CompletesElsewhere | pkg/controller/byotmachine_controller.go:1079-1120 | a run in which a stale read moves a machine in flight to another host, whose boot-id then completes the upgrade on a machine that was never upgraded |
| Walkthrough.UpgradeCompletes | pkg/controller/byotmachine_controller.go:901-1120 | there is a run, without a release, that discovers, claims, adopts and upgrades a host and then completes by boot-id, as CompletionIsSound requires |
| UpgradeCounterexamples.EmptyTagCompletes | pkg/controller/byotmachine_controller.go:1122-1155 | from every state of a run in flight without a boot-id whose attempt installed nothing, an empty tag and then an honest one complete the upgrade, with the host untouched |
| UpgradeCounterexamples.NeverInstalled | pkg/controller/byotmachine_controller.go:928-946 | such a run: a crash between the write-ahead and the install, and an empty tag, complete an upgrade that was never begun |
| UpgradeCounterexamples.PendingInstallCompletes | pkg/controller/byotmachine_controller.go:1122-1155 | from every such state with another install pending, a power cycle and one honest tag complete the upgrade, with the image the host had before |
| UpgradeCounterexamples.CompletesWithTheOther | pkg/controller/byotmachine_controller.go:1122-1155 | such a run: a second upgrade is recorded as complete while the host runs the first |
| UpgradeProperties.UpgradeBeforeLink | pkg/controller/byotmachine_controller.go:581-616 | when linkNode is reached with a desired version and not Failed, that version is the applied one, no upgrade is pending, in memory and in the store, and some version of the host record shows the machine's version |
| UpgradeProperties.MirrorsCurrent | pkg/controller/byotmachine_controller.go:1207-1253 | in every run, when linking is next the current host record shows the machine's version if and only if the reconcile has just written it or the version it read shows what the current one shows |
| UpgradeCounterexamples.MirrorIsStale | pkg/controller/byotmachine_controller.go:1218-1240 | a run that goes on to link with a version that the host no longer shows |
| UpgradeProperties.NodeUpdatedOnce | pkg/controller/byotmachine_controller.go:1432-1483 | nodeUpdated flips only by the patch that follows linking the node in the same reconcile, and never back |
| Lifecycle.TendingRefines | pkg/controller/byothost_controller.go:194-216 | a host reconcile that nothing overlaps stores exactly the record the phase machine prescribes, and changes nothing else of the host |
| Lifecycle.ReportFields | pkg/controller/byothost_controller.go:218-439 | field by field what each report of the host reconciler makes of any record, whatever its phase and claim |
| Lifecycle.WritesAreTurns | pkg/controller/claim.go:317-323 | what a claim, release or mirror writes is what its turn makes of the version read |
| Lifecycle.LifeIsTold | pkg/controller/byothost_controller.go:194-439 | in every life of a host each field of its record is what its turns tell: maintenance and the probe condition say what was answered last, the failure count how many liveness probes in a row were not, version and hardware what was found or mirrored last; labels apart |
| Lifecycle.TendingSyncsLabels | pkg/controller/byothost_controller.go:194-439 | every reconcile of a host that is not claimed leaves under each controller label what its record then says, and the operator's labels as they were |
| Lifecycle.ClaimableWhenAnswering | pkg/controller/claim.go:196-207 | a claim can be taken exactly of a host that is Available and answered when it was last asked |
| Lifecycle.LifeIsSteady | pkg/controller/byothost_controller.go:249-272 | across claims and releases, claimed exactly in phase Claimed; Available with fewer failures in a row than the threshold; none, and in maintenance, exactly if the probe condition is True; and with the availability label |
| Lifecycle.FlipsAtThreshold | pkg/controller/byothost_controller.go:399-423 | a host becomes Unavailable exactly by the failed probe that completes the threshold in a row |
| Lifecycle.LabelTellsPhase | pkg/controller/discovery.go:736-751 | every patch sets the availability label exactly when it leaves the phase Available |
| Lifecycle.IndexAgreesWithScan | pkg/controller/claim.go:209-238 | listing by the availability label and then filtering selects the same host as filtering all hosts |
| Lifecycle.ListOrderIsIrrelevant | pkg/controller/claim.go:230-237 | the selected host does not depend on the order of the list |
| ClaimSelection.FilterClaimCandidates | pkg/controller/claim.go:267-295 | the loop keeps exactly the candidates, in list order; in terms of the records: Available, probed, unclaimed or own, and without, in, or for want of a wanted failure domain |
| ClaimSelection.SortByName | pkg/controller/claim.go:235 | the result is a permutation of the candidates, sorted by name |
| ClaimSelection.SortedHead | pkg/controller/claim.go:230-237 | the head of the sorted candidates is the least candidate of the list |
| DiscoveryProperties.OverflowsAbove | pkg/controller/discovery.go:681-684 | the first rounding overflows exactly above 2^63-1-2^29 |
| DiscoveryProperties.OneRounding | pkg/controller/discovery.go:683-690 | rounding to GiB and then to TiB counts the same TiB as rounding once |
| DiscoveryProperties.RoundingIsClose | pkg/controller/discovery.go:672-694 | below that bound nothing overflows, the error is at most GiB/2, or TiB/2 + GiB/2 in T, and T starts where the capacity rounds to 1024 GiB |
| DiscoveryProperties.RoundingIsMonotone | pkg/controller/discovery.go:672-694 | a larger capacity never gets a smaller size, across the switch from G to T |
| DiscoveryProperties.RoundingIsStable | pkg/controller/discovery.go:672-694 | rounding the labelled size gives the same label, whenever that size is itself below the bound, and when it is |
| DiscoveryProperties.LabelNamesSize | pkg/controller/discovery.go:690-693 | the size reads back from its label |
| DiscoveryProperties.PickSystemDisk | pkg/controller/discovery.go:707-728 | the result is the first system disk whose name begins with /dev/md or md or, without any, the first system disk; none exactly when there is none |
| DiscoveryProperties.SelectSystemDisk | pkg/controller/talos_apply.go:596-628 | the result is the path of the first system disk whose path begins with /dev/md or, without any, of the first system disk; none exactly when there is none |
| DiscoveryProperties.SystemDiskIs | pkg/controller/discovery.go:707-734 | the same for the disk that labels advertise, read off the disks |
| DiscoveryProperties.InstallDiskIs | pkg/controller/talos_apply.go:596-628 | the same for the disk to install on, read off the disks of the storage API |
| DiscoveryProperties.HostDisksAre | pkg/controller/discovery.go:167-191 | the host's disks are those of the storage API in order, each under its path or, without a device name, under its name |
| DiscoveryProperties.AdvertisedDiskIsInstalled | pkg/controller/talos_apply.go:596-628 | the two pickers agree if the advertised disk has a device name or there is none; and only then, when no system disk without a device name is itself named like a path under /dev |
| DiscoveryProperties.NamelessDiskParts | pkg/controller/discovery.go:179-191 | a disk on which they disagree |
| DiscoveryProperties.ControllerLabelsAreOurs | pkg/controller/discovery.go:736-816 | every label the controller writes carries its prefix |
| DiscoveryProperties.SyncingLabels | pkg/controller/discovery.go:736-816 | syncing keeps every operator label, leaves exactly the current controller labels, and is idempotent |
| DiscoveryProperties.LabelsSay | pkg/controller/discovery.go:740-816 | which value stands under which label after syncing, for every key, and when there is none |
| DiscoveryProperties.LabelsReadBack | pkg/controller/discovery.go:776-799 | memory, cores and disk size read back from their labels |
| DiscoveryProperties.KindIsLowered | pkg/controller/discovery.go:696-705 | a disk gets a type label exactly for the four known types, in whatever case they are reported |
| Objects.ByotHost.ApplyDiscoveryLabels | pkg/controller/discovery.go:740-774 | the loop and the assignments build exactly the specified label map and change no other field |
| Objects.Labels.PromoteHardware | pkg/controller/discovery.go:776-799 | the hardware labels, GPU labels included, are added to the map in place |
| Objects.Labels.PromoteGpus | pkg/controller/discovery.go:804-816 | the count, vendor and model labels are added in place, each only when it says something |
| MachineConfig.ContainsString | pkg/controller/talos_apply.go:800-809 | found if and only if the list holds the string |
| MachineConfig.SetInstallDisk | pkg/controller/talos_apply.go:753-777 | in place, every document becomes the one with the install disk injected; count and order stay |
| MachineConfig.SetCertSANs | pkg/controller/talos_apply.go:664-681 | in place, one endpoint is added to the machine SANs of every document |
| MachineConfig.SetServerSANs | pkg/controller/talos_apply.go:701-725 | in place, one endpoint is added to the API server SANs of every document |
| MachineConfig.InjectCertSANs | pkg/controller/talos_apply.go:646-662 | all endpoints, one after the other |
| MachineConfig.InjectServerSANs | pkg/controller/talos_apply.go:683-699 | all endpoints, one after the other |
| MachineConfig.Prepare | pkg/controller/byotmachine_controller.go:1287-1298 | the three passes in the order of the apply |
| MachineConfig.PreparationLeavesTheRest | pkg/controller/talos_apply.go:646-777 | every path apart from the install disk and the two SAN lists keeps its value |
| MachineConfig.OperatorDiskWins | pkg/controller/talos_apply.go:767-772 | after the whole preparation an operator's disk or diskSelector has won, otherwise the given disk is set, if there is one |
| MachineConfig.PreparedCoversEndpoints | pkg/controller/byotmachine_controller.go:1373-1386 | existing SANs stay in front in their order, every endpoint is covered, none is added twice, and each in the order of the endpoints, in both lists; a document without the section gets no list |
| MachineConfig.PassesCommute | pkg/controller/talos_apply.go:664-777 | the three passes commute pairwise |
| MachineConfig.PreparationIsIdempotent | pkg/controller/talos_apply.go:646-777 | preparing again changes nothing, if and only if it is not the case that a disk is detected only the second time and the document names none |
| HostReconciler.ByotHostReconciler.Reconcile | pkg/controller/byothost_controller.go:111-139 | a reconcile performs the acts the lifecycle prescribes for the version it read, cut short at most by a crash |
| HostReconciler.ByotHostReconciler.ReconcileDelete | pkg/controller/byothost_controller.go:170-192 | the finalizer is removed only when the copy read is unclaimed |
| HostReconciler.ByotHostReconciler.ReconcileHost | pkg/controller/byothost_controller.go:194-216 | the acts are those the lifecycle prescribes for the phase read, cut short at most by a crash |
| HostReconciler.ByotHostReconciler.ReconcileProbing | pkg/controller/byothost_controller.go:218-247 | discovery, then the patch of exactly the tended record |
| HostReconciler.ByotHostReconciler.ReconcileAvailable | pkg/controller/byothost_controller.go:249-272 | probe, then the patch of exactly the tended record |
| HostReconciler.ByotHostReconciler.ReconcileUnavailable | pkg/controller/byothost_controller.go:274-315 | probe, rediscovery on an answer, then the patch of exactly the tended record |
| HostReconciler.ByotHostReconciler.ReconcileReleasing | pkg/controller/byothost_controller.go:317-358 | the same for a released host |
| HostReconciler.ByotHostReconciler.RecordDiscoveryFailure | pkg/controller/byothost_controller.go:360-397 | the fields assigned are those of a failed discovery |
| HostReconciler.ByotHostReconciler.RecordProbeFailure | pkg/controller/byothost_controller.go:399-439 | the fields assigned are those of a failed probe, Unavailable from the threshold on |
| Cluster.ApiServer.Interfere | pkg/controller/claim.go:297-340 | whatever all others do during a call leaves the caller's reconcile alone and its record but for spec edits |
| Cluster.ApiServer.Perform | pkg/controller/byotmachine_controller.go:458-486 | every call is one step of a run |
| MachineReconciler.ByotMachineReconciler.Reconcile | pkg/controller/byotmachine_controller.go:458-486 | one reconcile from rest to rest, interleaved with anything, either finds nothing left to reconcile and does nothing, or performs, from its own record on, one of the paths of `ReconcilePaths`; it extends a run, so upgradeMachine is still called at most once per generation |
| MachineReconciler.ByotMachineReconciler.Adopt | pkg/controller/byotmachine_controller.go:536-579 | waits, or settles the claim; then, exactly unless the upgrade has Failed or the machine is ready with a provider id and this very hash, applies the config and commits the adoption; then upgrades and links |
| MachineReconciler.ByotMachineReconciler.ReconcileAdopted | pkg/controller/byotmachine_controller.go:581-616 | the acts are those of the upgrade and, exactly unless that handled the reconcile, of the link; without a desired version or a ready machine those of the link alone |
| MachineReconciler.ByotMachineReconciler.ClaimHost | pkg/controller/claim.go:25-80 | the acts are the check of the recorded claim and, exactly when there is none or it is gone, the choice of a host, the put of the claim and the patch that records it; handled exactly when a call failed or no host was available |
| MachineReconciler.ByotMachineReconciler.VerifyExistingClaim | pkg/controller/claim.go:82-132 | the acts are the read and, exactly unless the version read carries this machine's claim, the patch that gives the host up, or the patch of the address when that differs; an error only when one of these failed |
| MachineReconciler.ByotMachineReconciler.ClearResolvedHost | pkg/controller/claim.go:134-152 | the record committed is the old one without host and address, and nothing else changes |
| MachineReconciler.ByotMachineReconciler.ResolveHostRef | pkg/controller/claim.go:177-207 | the only act is the read of the named host, admitted exactly when this machine may claim the version read |
| MachineReconciler.ByotMachineReconciler.SelectClaimCandidate | pkg/controller/claim.go:209-238 | the only act is the list, and the host selected is its least candidate |
| MachineReconciler.ByotMachineReconciler.ClaimCAS | pkg/controller/claim.go:297-340 | the acts are the read and, exactly when the version read is free or already this machine's, the put of the claimed record on it and of the finalizer if that lacks; an error exactly otherwise or when a call failed |
| MachineReconciler.ByotMachineReconciler.ReleaseHost | pkg/controller/claim.go:342-410 | the acts are the read and either a maintenance answer and the put to Available, or a reset and the put to Releasing, of the version read with the claim cleared; or nothing was there to release; an error exactly when a call failed |
| MachineReconciler.ByotMachineReconciler.ReconcileDelete | pkg/controller/byotmachine_controller.go:1953-1997 | the acts are those of the release, if a host is resolved, and then, exactly unless that failed, the removal of the finalizer |
| MachineReconciler.ByotMachineReconciler.ApplyAndMarkAdopted | pkg/controller/byotmachine_controller.go:1255-1335 | the acts are the choice of credentials, for a new worker the wait for the control plane, the apply, the patch of exactly the adopted record, and then upgrade and link; each only after the one before succeeded |
| MachineReconciler.ByotMachineReconciler.MarkAdopted | pkg/controller/byotmachine_controller.go:2114-2139 | the in-memory machine becomes the adopted one and nothing else changes |
| MachineReconciler.ByotMachineReconciler.ResolveApplyAuth | pkg/controller/byotmachine_controller.go:618-642 | for an adopted machine the only act is the wait for the talosconfig and the result the cluster bundle; otherwise acts and result are the preflight's |
| MachineReconciler.ByotMachineReconciler.PreflightJoin | pkg/controller/byotmachine_controller.go:663-711 | insecure on a maintenance answer; else the cluster bundle when the machine accepts it; else the referenced bundle, by the foreign path; or a wait for a talosconfig |
| MachineReconciler.ByotMachineReconciler.PreflightForeignMachine | pkg/controller/byotmachine_controller.go:2196-2231 | waits without a reference or its talosconfig, and exactly when the machine accepts the referenced bundle |
| MachineReconciler.ByotMachineReconciler.AwaitControlPlaneReady | pkg/controller/byotmachine_controller.go:2259-2298 | asks for the control plane for workers only, and handles exactly when it is not ready |
| MachineReconciler.ByotMachineReconciler.EnsureTalosVersion | pkg/controller/byotmachine_controller.go:713-777 | without a desired version or a ready machine no act, and not handled; a failure of another generation is retriggered by its patch; then by state: Failed ends the reconcile, in flight polls, and otherwise the version is completed when it is already applied for this generation, or probed and issued |
| MachineReconciler.ByotMachineReconciler.RetriggerStaleUpgradeFailure | pkg/controller/byotmachine_controller.go:791-816 | exactly for a stale Failed the record becomes the retriggered one and is committed; otherwise no act and no change |
| MachineReconciler.ByotMachineReconciler.UpgradeProbeAndIssue | pkg/controller/byotmachine_controller.go:893-965 | the acts are the config, the probe, and then a counted failure, or the committed write-ahead followed by install, boot-id, reboot and stash; install never comes before the commit |
| MachineReconciler.ByotMachineReconciler.UpgradeMachine | pkg/controller/talos_apply.go:233-277 | the acts are install, boot-id and reboot, or a failed install alone |
| MachineReconciler.ByotMachineReconciler.RecordUpgradeProbeFailure | pkg/controller/byotmachine_controller.go:840-891 | the acts are the counting patch and, exactly from the threshold on, the eviction or the Failed patch |
| MachineReconciler.ByotMachineReconciler.FinalizeUpgradeFailure | pkg/controller/byotmachine_controller.go:967-1026 | the acts are the Failed patch, the reset, and the patch that clears the adoption only after a successful reset, cut short at most by a failing call |
| MachineReconciler.ByotMachineReconciler.UpgradeInFlight | pkg/controller/byotmachine_controller.go:1041-1074 | the acts are the wait for the talosconfig and then those of the boot-id gate when a boot-id is stored, of the version fallback otherwise |
| MachineReconciler.ByotMachineReconciler.UpgradeInFlightBootIDGate | pkg/controller/byotmachine_controller.go:1076-1120 | by the answer: a failed read is counted, an unauthorised one leaves it to the version, another boot-id completes and mirrors, the same or none commits the record as it is |
| MachineReconciler.ByotMachineReconciler.UpgradeInFlightVersionFallback | pkg/controller/byotmachine_controller.go:1122-1155 | by the answer: no version is counted, a tag that is not empty and not the recorded one completes and mirrors, any other commits the tag |
| MachineReconciler.ByotMachineReconciler.MarkUpgradeComplete | pkg/controller/byotmachine_controller.go:1157-1205 | the acts are the patch of exactly the completed record and then the mirror's, cut short at most by a failing patch |
| MachineReconciler.ByotMachineReconciler.SyncHostTalosVersion | pkg/controller/byotmachine_controller.go:1207-1253 | the acts are none without host or version; else the read and, exactly unless that is missing or up to date, a versioned put of the version read with the machine's version |
| MachineReconciler.ByotMachineReconciler.LinkNode | pkg/controller/byotmachine_controller.go:1388-1483 | the acts are the link and, only when the node was patched, the nodeUpdated patch |

## Left out

- CleanReturn: only as long as no release has cleared another machine's claim. That is false of the code in general: `SecondReleaseSteals` is a run that does, `FairReleaseSparesOthers` the check that prevents it, `TheftBreaksCleanReturn` what exactly the first such write breaks. A repeated release may also reset the host of another machine without clearing its claim; the results hold then too.
- ResolvedIsOwned: the same runs only, and only until the machine has released.
- ResolvedApart: the same.
- EvictionHolds: the same.
- ForeignNeverOverwritten: takes for granted that a probe and an apply with the same credentials agree within a reconcile, as the code does.
- CompletionIsSound: only when the machine has last recorded the host on which it wrote the upgrade ahead (`CompletesElsewhere` is a run where it has not); by the version fallback only when no version answer was empty and nothing else was waiting for a reboot when the attempt began (`NeverInstalled`, `CompletesWithTheOther`).
- UpgradeBeforeLink: the mirrored version is that of some stored version of the host; `MirrorsCurrent` says exactly when it is that of the current one, and `MirrorIsStale` is a run where it is not.
- InterruptedAdoptionResumes: other actors taking steps in between are not part of it.
- AdvertisedDiskIsInstalled: one message of the storage API, as both callers use.
- The content of the machine config does not travel with the apply step of the protocol; `MachineConfig` treats it on its own, on decoded documents. YAML decoding and encoding are library code.
- The host selector: a list may return any set of hosts, each at most once, so what the label selector matches is not modelled.
- GPU discovery, host identity, network interfaces, internal IPs and the order of endpoints, which add fields without adding decisions.
- Conditions and their messages, timestamps, requeue delays, events and logs; only the maintenance probe condition is kept, since claims read it.
- The patch helper's separate requests for metadata, spec and status are one atomic patch here.
- Phases other than the six declared ones, which the host reconciler treats as Probing.
- markInvalidImageRef, which cannot be reached.
- ensureNodeLinked, syncNodeLabels, taints and the kubelet nudge, which write to the workload cluster or to annotations only.
- ByotCluster, watches and their predicates, TLS, kubeconfigs, gRPC streams and timeouts.
- Liveness: nothing says that a reconcile is ever started again.
