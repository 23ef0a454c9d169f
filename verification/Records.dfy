/** The two stored records, ByotHost and ByotMachine, and the merge patches
    both reconcilers commit them with. */
module Records {
  import opened Common

  type Uid = string
  type HostName = string

  /** The phases of a ByotHost; Unset is the empty string of a new record. */
  datatype Phase = Unset | Probing | Available | Unavailable | Claimed | Releasing

  datatype Disk = Disk(name: string, size: int, kind: string, systemDisk: bool)

  /** vendor and model are empty when the devices differ or are unknown. */
  datatype Gpus = Gpus(count: int, vendor: string, model: string)

  datatype Hardware = Hardware(cores: int, memory: int, disks: seq<Disk>, gpus: Option<Gpus>)

  /** What one successful discovery reports. */
  datatype DiscoveryResult = DiscoveryResult(talosVersion: string, arch: string, platform: string, hardware: Hardware)

  datatype HostRec = HostRec(
    // metadata and spec
    publicIP: string, failureDomain: string, labels: map<string, string>,
    finalizer: bool, deleting: bool,
    // status; probed is the MaintenanceProbe condition being True
    phase: Phase, claimRef: Option<Uid>, probed: bool, maintenance: bool, failures: nat,
    talosVersion: string, arch: string, platform: string, hardware: Option<Hardware>)

  /** A boot-id: 0 stands for the empty string, n + 1 for the id of boot n. */
  type BootId = nat

  datatype Upgrade = NoUpgrade | InFlight | Failed

  datatype MachineRec = MachineRec(
    // metadata and spec; "" is an unset desired version or provider id
    generation: nat, desired: string, providerID: string, finalizer: bool, deleting: bool,
    // status
    resolvedHost: Option<HostName>, resolvedIP: string,
    ready: bool, configSHA: string, nodeUpdated: bool,
    talosVersion: string, upgrade: Upgrade, probeFailures: nat,
    attemptGeneration: nat, appliedRef: string, preRebootBoot: BootId)

  predicate Sets(base: map<string, string>, local: map<string, string>, key: string) {
    key in local && (key !in base || base[key] != local[key])
  }

  /** Labels are patched key by key. */
  function PatchLabels(stored: map<string, string>, base: map<string, string>, local: map<string, string>)
    : map<string, string>
  {
    map key | key in stored.Keys + local.Keys &&
              (Sets(base, local, key) || (key in stored && !(key in base && key !in local))) ::
      if Sets(base, local, key) then local[key] else stored[key]
  }

  /** Each label is a field of its own: one that the copy shares with the snapshot stays as it is
      stored; any other takes the copy's value, or goes with it. */
  lemma {:induction false} PatchLabelsByKey(stored: map<string, string>, base: map<string, string>, local: map<string, string>, key: string)
    ensures Entry(PatchLabels(stored, base, local), key) ==
            if Entry(local, key) == Entry(base, key) then Entry(stored, key) else Entry(local, key)
  {
  }

  /** The unversioned patch of the host reconciler. Only fields it may change appear. */
  function PatchHost(stored: HostRec, base: HostRec, local: HostRec): HostRec {
    stored.(labels := PatchLabels(stored.labels, base.labels, local.labels),
            phase := Merge(stored.phase, base.phase, local.phase),
            claimRef := Merge(stored.claimRef, base.claimRef, local.claimRef),
            probed := Merge(stored.probed, base.probed, local.probed),
            maintenance := Merge(stored.maintenance, base.maintenance, local.maintenance),
            failures := Merge(stored.failures, base.failures, local.failures),
            talosVersion := Merge(stored.talosVersion, base.talosVersion, local.talosVersion),
            arch := Merge(stored.arch, base.arch, local.arch),
            platform := Merge(stored.platform, base.platform, local.platform),
            hardware := Merge(stored.hardware, base.hardware, local.hardware))
  }

  /** A patch opened on the current version stores exactly the local copy. */
  lemma {:induction false} PatchHostOnCurrent(base: HostRec, local: HostRec)
    requires base.publicIP == local.publicIP && base.failureDomain == local.failureDomain
    requires base.finalizer == local.finalizer && base.deleting == local.deleting
    ensures PatchHost(base, base, local) == local
  {
    var patched := PatchLabels(base.labels, base.labels, local.labels);
    assert patched.Keys == local.labels.Keys;
    assert patched == local.labels;
  }

  /** A patch without changes keeps the stored record, whatever it has become. */
  lemma {:induction false} EmptyPatchKeeps(stored: HostRec, base: HostRec)
    ensures PatchHost(stored, base, base) == stored
  {
    assert PatchLabels(stored.labels, base.labels, base.labels) == stored.labels;
  }

  /** The machine reconciler's patch. Changing spec.providerID is a spec edit, so the
      API server bumps the generation. */
  function PatchMachine(stored: MachineRec, base: MachineRec, local: MachineRec): MachineRec {
    var providerID := Merge(stored.providerID, base.providerID, local.providerID);
    stored.(generation := if providerID == stored.providerID then stored.generation else stored.generation + 1,
            providerID := providerID,
            resolvedHost := Merge(stored.resolvedHost, base.resolvedHost, local.resolvedHost),
            resolvedIP := Merge(stored.resolvedIP, base.resolvedIP, local.resolvedIP),
            ready := Merge(stored.ready, base.ready, local.ready),
            configSHA := Merge(stored.configSHA, base.configSHA, local.configSHA),
            nodeUpdated := Merge(stored.nodeUpdated, base.nodeUpdated, local.nodeUpdated),
            talosVersion := Merge(stored.talosVersion, base.talosVersion, local.talosVersion),
            upgrade := Merge(stored.upgrade, base.upgrade, local.upgrade),
            probeFailures := Merge(stored.probeFailures, base.probeFailures, local.probeFailures),
            attemptGeneration := Merge(stored.attemptGeneration, base.attemptGeneration, local.attemptGeneration),
            appliedRef := Merge(stored.appliedRef, base.appliedRef, local.appliedRef),
            preRebootBoot := Merge(stored.preRebootBoot, base.preRebootBoot, local.preRebootBoot))
  }

  /** The same two laws, but for the generation, which a new provider id increments. */
  lemma {:induction false} PatchMachineMerges(stored: MachineRec, base: MachineRec, local: MachineRec)
    requires base.generation == local.generation && base.desired == local.desired
    requires base.finalizer == local.finalizer && base.deleting == local.deleting
    ensures PatchMachine(stored, base, base) == stored
    ensures PatchMachine(base, base, local) ==
            if local.providerID == base.providerID then local else local.(generation := base.generation + 1)
  {
  }

  predicate ConfigUnchanged(m: MachineRec, hash: string) {
    m.ready && m.providerID != "" && m.configSHA == hash
  }

  predicate AlreadyApplied(m: MachineRec) {
    m.appliedRef == m.desired && m.attemptGeneration == m.generation
  }

  const PROVIDER_PREFIX := "byot://"
}
