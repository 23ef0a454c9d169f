/** The in-memory ByotMachine and ByotHost that a reconcile changes field by field and
    then commits. */
module Objects {
  import opened Common
  import opened Records
  import opened Discovery
  import opened DiscoveryProperties

  class ByotMachine {
    var generation: nat
    var desired: string
    var providerID: string
    var finalizer: bool
    var deleting: bool
    var resolvedHost: Option<HostName>
    var resolvedIP: string
    var ready: bool
    var configSHA: string
    var nodeUpdated: bool
    var talosVersion: string
    var upgrade: Upgrade
    var probeFailures: nat
    var attemptGeneration: nat
    var appliedRef: string
    var preRebootBoot: BootId

    /** The record these fields make up. */
    function Rec(): MachineRec
      reads this
    {
      MachineRec(generation, desired, providerID, finalizer, deleting, resolvedHost, resolvedIP, ready, configSHA,
                 nodeUpdated, talosVersion, upgrade, probeFailures, attemptGeneration, appliedRef, preRebootBoot)
    }

    constructor (r: MachineRec)
      ensures Rec() == r
    {
      generation := r.generation;
      desired := r.desired;
      providerID := r.providerID;
      finalizer := r.finalizer;
      deleting := r.deleting;
      resolvedHost := r.resolvedHost;
      resolvedIP := r.resolvedIP;
      ready := r.ready;
      configSHA := r.configSHA;
      nodeUpdated := r.nodeUpdated;
      talosVersion := r.talosVersion;
      upgrade := r.upgrade;
      probeFailures := r.probeFailures;
      attemptGeneration := r.attemptGeneration;
      appliedRef := r.appliedRef;
      preRebootBoot := r.preRebootBoot;
    }
  }

  /** A label map that is filled in place. */
  class Labels {
    var m: map<string, string>

    constructor ()
      ensures m == map[]
    {
      m := map[];
    }

    method SetUnless(absent: bool, key: string, value: string)
      modifies this
      ensures m == old(m) + LabelUnless(absent, key, value)
    {
      if !absent {
        m := m[key := value];
      }
    }

    /** promoteHardwareLabels */
    method PromoteHardware(hw: Hardware)
      modifies this
      ensures m == old(m) + HardwareLabels(hw)
    {
      hide LabelUnless, CPU_CORES, MEMORY, DISK_TYPE, DISK_SIZE, SystemDisk, DiskTypeLabel, Decimal, RoundQuantity, GpuLabels;
      var disk := PickSystemDisk(hw.disks);
      SetUnless(hw.cores <= 0, CPU_CORES, Decimal(hw.cores));
      SetUnless(hw.memory == 0, MEMORY, SizeLabel(RoundQuantity(hw.memory)));
      ghost var before := LabelUnless(hw.cores <= 0, CPU_CORES, Decimal(hw.cores)) +
                          LabelUnless(hw.memory == 0, MEMORY, SizeLabel(RoundQuantity(hw.memory)));
      Assoc(old(m), LabelUnless(hw.cores <= 0, CPU_CORES, Decimal(hw.cores)),
            LabelUnless(hw.memory == 0, MEMORY, SizeLabel(RoundQuantity(hw.memory))));
      ghost var disks := match disk case None => map[] case Some(d) => DiskLabels(d);
      if disk.Some? {
        PromoteDisk(disk.value);
      } else {
        NoLabels(m);
      }
      Assoc(old(m), before, disks);
      if hw.gpus.Some? {
        PromoteGpus(hw.gpus.value);
        Assoc(old(m), before + disks, GpuLabels(hw.gpus.value));
      } else {
        NoLabels(before + disks);
      }
    }

    /** promoteGPULabels */
    method PromoteGpus(g: Gpus)
      modifies this
      ensures m == old(m) + GpuLabels(g)
    {
      hide LabelUnless, GPU_COUNT, GPU_VENDOR, GPU_MODEL, Decimal;
      SetUnless(g.count <= 0, GPU_COUNT, Decimal(g.count));
      SetUnless(g.vendor == "", GPU_VENDOR, g.vendor);
      SetUnless(g.model == "", GPU_MODEL, g.model);
      ghost var count, vendor := LabelUnless(g.count <= 0, GPU_COUNT, Decimal(g.count)), LabelUnless(g.vendor == "", GPU_VENDOR, g.vendor);
      Assoc(old(m), count, vendor);
      Assoc(old(m), count + vendor, LabelUnless(g.model == "", GPU_MODEL, g.model));
    }

    method PromoteDisk(d: Disk)
      modifies this
      ensures m == old(m) + DiskLabels(d)
    {
      hide LabelUnless, DISK_TYPE, DISK_SIZE, DiskTypeLabel, Decimal, RoundQuantity;
      var kind := DiskTypeLabel(d.kind);
      SetUnless(kind == "", DISK_TYPE, kind);
      SetUnless(d.size == 0, DISK_SIZE, SizeLabel(RoundQuantity(d.size)));
      Assoc(old(m), LabelUnless(kind == "", DISK_TYPE, kind),
            LabelUnless(d.size == 0, DISK_SIZE, SizeLabel(RoundQuantity(d.size))));
    }

    /** The labels of the current status and spec, on top of the operator's. */
    method PromoteStatus(h: HostRec)
      modifies this
      ensures m == old(m) + ControllerLabels(h)
    {
      hide LabelUnless, AVAILABLE, CPU_ARCH, TALOS_VERSION, PLATFORM, FAILURE_DOMAIN, HardwareLabels;
      SetUnless(h.phase != Available, AVAILABLE, "true");
      ghost var m1 := m;
      SetUnless(h.arch == "", CPU_ARCH, h.arch);
      SetUnless(h.talosVersion == "", TALOS_VERSION, h.talosVersion);
      SetUnless(h.platform == "", PLATFORM, h.platform);
      ghost var hw := match h.hardware case None => map[] case Some(hw) => HardwareLabels(hw);
      if h.hardware.Some? {
        PromoteHardware(h.hardware.value);
      } else {
        assert m + map[] == m;
      }
      SetUnless(h.failureDomain == "", FAILURE_DOMAIN, h.failureDomain);
      Chain(m1, LabelUnless(h.arch == "", CPU_ARCH, h.arch), LabelUnless(h.talosVersion == "", TALOS_VERSION, h.talosVersion),
            LabelUnless(h.platform == "", PLATFORM, h.platform), hw,
            LabelUnless(h.failureDomain == "", FAILURE_DOMAIN, h.failureDomain));
      Assoc(old(m), LabelUnless(h.phase != Available, AVAILABLE, "true"), FeatureLabels(h));
    }
  }

  function Among(labels: map<string, string>, keys: set<string>): map<string, string> {
    map key | key in labels && key in keys :: labels[key]
  }

  lemma OneMoreKey(labels: map<string, string>, keys: set<string>, key: string)
    requires key in labels
    ensures var before := OperatorLabels(Among(labels, keys));
            OperatorLabels(Among(labels, keys + {key})) == if PREFIX <= key then before else before[key := labels[key]]
  {
    hide PREFIX;
  }

  lemma NoKeys(labels: map<string, string>)
    ensures OperatorLabels(Among(labels, labels.Keys - labels.Keys)) == map[]
  {
    hide PREFIX;
  }

  lemma AllKeys(labels: map<string, string>)
    ensures OperatorLabels(Among(labels, labels.Keys - {})) == OperatorLabels(labels)
  {
    assert Among(labels, labels.Keys - {}) == labels;
  }

  lemma NoLabels(a: map<string, string>)
    ensures a + map[] == a
  {
  }

  lemma Assoc(a: map<string, string>, b: map<string, string>, c: map<string, string>)
    ensures (a + b) + c == a + (b + c)
  {
  }

  lemma Chain(k: map<string, string>, a: map<string, string>, b: map<string, string>, c: map<string, string>,
              d: map<string, string>, e: map<string, string>)
    ensures ((((k + a) + b) + c) + d) + e == k + ((((a + b) + c) + d) + e)
  {
    Assoc(k, a, b);
    Assoc(k, a + b, c);
    Assoc(k, (a + b) + c, d);
    Assoc(k, ((a + b) + c) + d, e);
  }

  class ByotHost {
    var publicIP: string
    var failureDomain: string
    var labels: map<string, string>
    var finalizer: bool
    var deleting: bool
    var phase: Phase
    var claimRef: Option<Uid>
    var probed: bool
    var maintenance: bool
    var failures: nat
    var talosVersion: string
    var arch: string
    var platform: string
    var hardware: Option<Hardware>

    /** The record these fields make up. */
    function Rec(): HostRec
      reads this
    {
      HostRec(publicIP, failureDomain, labels, finalizer, deleting, phase, claimRef, probed, maintenance, failures,
              talosVersion, arch, platform, hardware)
    }

    constructor (r: HostRec)
      ensures Rec() == r
    {
      publicIP := r.publicIP;
      failureDomain := r.failureDomain;
      labels := r.labels;
      finalizer := r.finalizer;
      deleting := r.deleting;
      phase := r.phase;
      claimRef := r.claimRef;
      probed := r.probed;
      maintenance := r.maintenance;
      failures := r.failures;
      talosVersion := r.talosVersion;
      arch := r.arch;
      platform := r.platform;
      hardware := r.hardware;
    }

    /** applyDiscoveryLabels: rebuilds the label map from the operator's labels and the
        current status. */
    method ApplyDiscoveryLabels()
      modifies this
      ensures Rec() == old(Rec()).(labels := DiscoveryLabels(old(Rec())))
    {
      hide ControllerLabels, OperatorLabels, Among;
      var next := new Labels();
      var keys := labels.Keys;
      NoKeys(labels);
      while keys != {}
        invariant keys <= labels.Keys
        invariant next.m == OperatorLabels(Among(labels, labels.Keys - keys))
        invariant fresh(next) && Rec() == old(Rec())
        decreases |keys|
      {
        var key :| key in keys;
        OneMoreKey(labels, labels.Keys - keys, key);
        assert labels.Keys - (keys - {key}) == labels.Keys - keys + {key};
        keys := keys - {key};
        if !(PREFIX <= key) {
          next.m := next.m[key := labels[key]];
        }
      }
      AllKeys(labels);
      next.PromoteStatus(Rec());
      labels := next.m;
    }

    /** populateFromDiscovery and the assignments that follow it in every caller. */
    method Populate(d: DiscoveryResult)
      modifies this
      ensures Rec() == old(Rec()).(talosVersion := d.talosVersion, arch := d.arch, platform := d.platform,
                                   hardware := Some(d.hardware), phase := Available, maintenance := true, failures := 0,
                                   probed := true)
    {
      talosVersion := d.talosVersion;
      arch := d.arch;
      platform := d.platform;
      hardware := Some(d.hardware);
      phase := Available;
      maintenance := true;
      failures := 0;
      probed := true;
    }
  }
}
