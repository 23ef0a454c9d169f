/** The life of one host when reconciles do not overlap: the phase machine across claims
    and releases, and the availability label as an index for claims. */
module Lifecycle {
  import opened Common
  import opened Records
  import opened Discovery
  import opened DiscoveryProperties
  import opened HostProtocol
  import opened MachineProtocol
  import opened World

  // ---------- One whole reconcile ----------

  /** What a host reconcile reports when its probe and its discovery are answered so. */
  function ReportOf(phase: Phase, probe: bool, found: Option<DiscoveryResult>): Option<Report> {
    var discovered := if found.Some? then Found(found.value) else NotFound;
    match phase
    case Unset | Probing => Some(discovered)
    case Available => Some(if probe then Alive else Silent)
    case Unavailable | Releasing => Some(if probe then discovered else Waiting)
    case Claimed => None
  }

  function Tended(h: HostRec, threshold: nat, probe: bool, found: Option<DiscoveryResult>): HostRec {
    var report := ReportOf(h.phase, probe, found);
    if report.None? then h else Reported(h, report.value, threshold)
  }

  /** The record after a discovery. */
  predicate Looks(h: HostRec, found: Option<DiscoveryResult>, r: HostRec) {
    r == match found
         case None => h.(phase := Probing, probed := false, maintenance := false)
         case Some(d) =>
           h.(phase := Available, probed := true, maintenance := true, failures := 0,
              claimRef := if h.phase == Releasing then None else h.claimRef,
              talosVersion := d.talosVersion, arch := d.arch, platform := d.platform, hardware := Some(d.hardware))
  }

  /** Field by field what a report makes of any record, whatever its phase and claim; labels
      apart. */
  lemma {:induction false} ReportFields(h: HostRec, threshold: nat, found: Option<DiscoveryResult>)
    ensures Looks(h, found, Reported(h, if found.Some? then Found(found.value) else NotFound, threshold).(labels := h.labels))
    ensures Reported(h, Alive, threshold).(labels := h.labels) == h.(probed := true, maintenance := true, failures := 0)
    ensures Reported(h, Silent, threshold).(labels := h.labels) ==
            h.(probed := false, maintenance := false, failures := h.failures + 1,
               phase := if h.failures + 1 < threshold then h.phase else Unavailable)
    ensures Reported(h, Waiting, threshold).(labels := h.labels) == h
  {
    hide DiscoveryLabels;
  }

  /** The acts of that reconcile on a record that has its finalizer, once it is read. */
  function TendActs(rec: HostRec, threshold: nat, probe: bool, found: Option<DiscoveryResult>): seq<HostAct> {
    var report := ReportOf(rec.phase, probe, found);
    (if rec.phase in {Available, Unavailable, Releasing} then [ProbeLiveness(probe)] else []) +
    (if report.Some? && (report.value.Found? || report.value.NotFound?) then [RunDiscovery(found)] else []) +
    (if report.Some? then [PatchSelf(Reported(rec, report.value, threshold))] else [])
  }

  /** The read and the acts that follow it. */
  function ReadAndTend(h: Host, probe: bool, found: Option<DiscoveryResult>): seq<HostAct>
    requires h.versions != []
  {
    [ReadSelf(|h.versions| - 1, Last(h.versions))] + TendActs(Last(h.versions), h.threshold, probe, found)
  }

  function HostDoes(h: Host, acts: seq<HostAct>): Option<Host>
    decreases |acts|
  {
    if acts == [] then Some(h)
    else
      var h1 := HostNext(h, acts[0]);
      if h1.Some? then HostDoes(h1.value, acts[1..]) else None
  }

  lemma HostDoesOne(h: Host, act: HostAct, rest: seq<HostAct>)
    requires HostNext(h, act).Some?
    ensures HostDoes(h, [act] + rest) == HostDoes(HostNext(h, act).value, rest)
  {
    hide HostNext;
    assert ([act] + rest)[1..] == rest;
  }

  lemma ReportedKeepsMeta(h: HostRec, report: Report, threshold: nat)
    ensures var r := Reported(h, report, threshold);
            r.publicIP == h.publicIP && r.failureDomain == h.failureDomain && r.finalizer == h.finalizer && r.deleting == h.deleting
  {
    hide DiscoveryLabels;
  }

  /** The reconcile about to patch, opened on the current version. */
  predicate Patches(h: Host, report: Report) {
    h.versions != [] && !h.gone && h.actor.pc == HostPc.Report(report) && h.actor.base == Last(h.versions)
  }

  lemma PatchStores(h: Host, report: Report)
    requires Patches(h, report)
    ensures var rec := Reported(Last(h.versions), report, h.threshold);
            && HostDoes(h, [PatchSelf(rec)]).Some?
            && var h' := HostDoes(h, [PatchSelf(rec)]).value;
            && h' == h.(versions := h.versions + [rec], actor := h.actor.(pc := HostIdle))
  {
    hide Reported;
    var base := Last(h.versions);
    var rec := Reported(base, report, h.threshold);
    ReportedKeepsMeta(base, report, h.threshold);
    PatchHostOnCurrent(base, rec);
    var h' := Store(h.(actor := h.actor.(pc := HostIdle)), rec);
    assert HostNext(h, PatchSelf(rec)) == Some(h');
    HostDoesOne(h, PatchSelf(rec), []);
    assert [PatchSelf(rec)] + [] == [PatchSelf(rec)];
  }

  /** The reconcile at this point, opened on the current version. */
  predicate Works(h: Host, pc: HostPc) {
    h.versions != [] && !h.gone && h.actor.pc == pc && h.actor.base == Last(h.versions)
  }

  /** It reads the record. */
  lemma Reads(h: Host, rest: seq<HostAct>) returns (h1: Host)
    requires h.versions != [] && !h.gone && h.actor.pc.HostIdle?
    requires Last(h.versions).finalizer && !Last(h.versions).deleting
    ensures Works(h1, PhasePc(Last(h.versions).phase)) && h1 == h.(actor := h1.actor)
    ensures HostDoes(h, [ReadSelf(|h.versions| - 1, Last(h.versions))] + rest) == HostDoes(h1, rest)
  {
    var read := ReadSelf(|h.versions| - 1, Last(h.versions));
    h1 := HostNext(h, read).value;
    HostDoesOne(h, read, rest);
  }

  /** It probes. */
  lemma Probes(h: Host, probe: bool, rest: seq<HostAct>) returns (h1: Host)
    requires Works(h, Probe) && (probe ==> h.config.Empty?)
    ensures Works(h1, AfterProbe(Last(h.versions).phase, probe)) && h1 == h.(actor := h1.actor)
    ensures HostDoes(h, [ProbeLiveness(probe)] + rest) == HostDoes(h1, rest)
  {
    h1 := HostNext(h, ProbeLiveness(probe)).value;
    HostDoesOne(h, ProbeLiveness(probe), rest);
  }

  /** It runs the discovery. */
  lemma Discovers(h: Host, found: Option<DiscoveryResult>, rest: seq<HostAct>) returns (h1: Host)
    requires Works(h, Discover) && (found.Some? ==> h.config.Empty?)
    ensures Works(h1, HostPc.Report(if found.Some? then Found(found.value) else NotFound)) && h1 == h.(actor := h1.actor)
    ensures HostDoes(h, [RunDiscovery(found)] + rest) == HostDoes(h1, rest)
  {
    h1 := HostNext(h, RunDiscovery(found)).value;
    HostDoesOne(h, RunDiscovery(found), rest);
  }

  /** The acts before the patch only collect answers. */
  lemma Collects(h: Host, probe: bool, found: Option<DiscoveryResult>)
    requires h.versions != [] && !h.gone && h.actor.pc.HostIdle? && (probe || found.Some? ==> h.config.Empty?)
    requires Last(h.versions).finalizer && !Last(h.versions).deleting && Last(h.versions).phase != Phase.Claimed
    ensures var rec := Last(h.versions);
            var report := ReportOf(rec.phase, probe, found).value;
            var patch := PatchSelf(Reported(rec, report, h.threshold));
            exists h1: Host ::
              && Patches(h1, report) && h1 == h.(actor := h1.actor)
              && HostDoes(h, ReadAndTend(h, probe, found)) == HostDoes(h1, [patch])
  {
    hide Reported, HostNext, HostDoes;
    var rec := Last(h.versions);
    var report := ReportOf(rec.phase, probe, found).value;
    var patch := PatchSelf(Reported(rec, report, h.threshold));
    var probes := if rec.phase in {Available, Unavailable, Releasing} then [ProbeLiveness(probe)] else [];
    var runs := if report.Found? || report.NotFound? then [RunDiscovery(found)] else [];
    assert ReadAndTend(h, probe, found) == [ReadSelf(|h.versions| - 1, rec)] + (probes + (runs + [patch]));
    var h1 := Reads(h, probes + (runs + [patch]));
    if probes != [] {
      h1 := Probes(h1, probe, runs + [patch]);
    } else {
      assert [] + (runs + [patch]) == runs + [patch];
    }
    if runs != [] {
      h1 := Discovers(h1, found, [patch]);
    } else {
      assert [] + [patch] == [patch];
    }
    assert Patches(h1, report);
  }

  /** A reconcile that nothing overlaps stores exactly the tended record, and touches nothing
      else: the merge patch loses nothing. */
  lemma {:induction false} TendingRefines(h: Host, probe: bool, found: Option<DiscoveryResult>)
    requires h.versions != [] && !h.gone && h.actor.pc.HostIdle? && (probe || found.Some? ==> h.config.Empty?)
    requires Last(h.versions).finalizer && !Last(h.versions).deleting
    ensures var rec := Last(h.versions);
            && HostDoes(h, ReadAndTend(h, probe, found)).Some?
            && var h' := HostDoes(h, ReadAndTend(h, probe, found)).value;
            && h' == h.(versions := if rec.phase == Phase.Claimed then h.versions
                                    else h.versions + [Tended(rec, h.threshold, probe, found)],
                        actor := h'.actor)
            && h'.actor.pc.HostIdle?
  {
    hide Reported;
    var rec := Last(h.versions);
    if rec.phase == Phase.Claimed {
      HostDoesOne(h, ReadSelf(|h.versions| - 1, rec), []);
      assert ReadAndTend(h, probe, found) == [ReadSelf(|h.versions| - 1, rec)] + [];
    } else {
      Collects(h, probe, found);
      var report := ReportOf(rec.phase, probe, found).value;
      var patch := PatchSelf(Reported(rec, report, h.threshold));
      var h1: Host :| && Patches(h1, report) && h1 == h.(actor := h1.actor)
                      && HostDoes(h, ReadAndTend(h, probe, found)) == HostDoes(h1, [patch]);
      PatchStores(h1, report);
    }
  }

  // ---------- Turns ----------

  /** One whole reconcile, or an operator's edit. Give back is a release: to Available when
      the host answered in maintenance, to Releasing after a reset. */
  datatype Turn =
    | Tend(probe: bool, found: Option<DiscoveryResult>)
    | Claim(u: Uid)
    | GiveBack(u: Uid, maintenance: bool)
    | Mirror(u: Uid, version: string)
    | Relabel(labels: map<string, string>)

  function Take(h: HostRec, threshold: nat, turn: Turn): Option<HostRec> {
    match turn
    case Tend(probe, found) => Some(Tended(h, threshold, probe, found))
    case Claim(u) => if ClaimableBy(h, u) then Some(h.(claimRef := Some(u), phase := Phase.Claimed)) else None
    case GiveBack(u, maintenance) =>
      if h.claimRef == Some(u) then
        Some(h.(claimRef := None, phase := if maintenance then Available else Releasing))
      else None
    case Mirror(u, version) => if h.claimRef == Some(u) then Some(h.(talosVersion := version)) else None
    case Relabel(labels) =>
      // operators leave the controller's own labels alone
      if forall key :: PREFIX <= key && key in h.labels.Keys + labels.Keys ==>
           key in h.labels && key in labels && labels[key] == h.labels[key]
      then Some(h.(labels := labels)) else None
  }

  /** The turn that a versioned write of a machine makes. */
  function TurnOf(u: Uid, a: Actor): Option<Turn> {
    match a.pc
    case CasPut(_, _, _, _) => Some(Claim(u))
    case ReleasePut(_, _, phase) => Some(GiveBack(u, phase == Available))
    case MirrorPut(_, _) => Some(Mirror(u, a.local.talosVersion))
    case _ => None
  }

  /** What claimCAS, releaseHost and syncHostTalosVersion write is what their turn makes of the
      version they read: one that the machine may claim, or holds. */
  lemma {:induction false} WritesAreTurns(u: Uid, a: Actor, threshold: nat)
    requires TurnOf(u, a).Some?
    requires if a.pc.CasPut? then ClaimableBy(a.pc.seen, u) else a.pc.seen.claimRef == Some(u)
    requires a.pc.ReleasePut? ==> a.pc.phase in {Available, Releasing}
    ensures ToPut(u, a).Some? && ToPut(u, a) == Take(a.pc.seen, threshold, TurnOf(u, a).value)
  {
  }

  function Live(h: HostRec, threshold: nat, turns: seq<Turn>): Option<HostRec> {
    if turns == [] then Some(h)
    else
      var before := Live(h, threshold, turns[..|turns| - 1]);
      if before.Some? then Take(before.value, threshold, Last(turns)) else None
  }

  /** What one would tell of a host from its turns alone: its phase and claimant, how many
      liveness probes in a row have failed while it was Available, what it answered last (None as
      long as nobody asked), what was discovered last, and the version that was found or mirrored
      last. */
  datatype Tale = Tale(phase: Phase, claim: Option<Uid>, streak: nat, answer: Option<bool>,
                       found: Option<DiscoveryResult>, version: Option<string>)

  function Looked(t: Tale, found: Option<DiscoveryResult>): Tale {
    match found
    case None => t.(phase := Probing, answer := Some(false))
    case Some(d) =>
      t.(phase := Available, streak := 0, answer := Some(true), found := Some(d), version := Some(d.talosVersion))
  }

  function Told(t: Tale, threshold: nat, turn: Turn): Tale {
    match turn
    case Tend(probe, found) =>
      (match t.phase
       case Unset | Probing => Looked(t, found)
       case Available =>
         if probe then t.(streak := 0, answer := Some(true))
         else t.(streak := t.streak + 1, answer := Some(false),
                 phase := if t.streak + 1 == threshold then Unavailable else Available)
       case Unavailable | Releasing => if probe then Looked(t, found) else t
       case Claimed => t)
    case Claim(u) => t.(phase := Phase.Claimed, claim := Some(u))
    case GiveBack(_, maintenance) => t.(phase := if maintenance then Available else Releasing, claim := None)
    case Mirror(_, version) => t.(version := Some(version))
    case Relabel(_) => t
  }

  function TaleOf(threshold: nat, turns: seq<Turn>): Tale {
    if turns == [] then Tale(Unset, None, 0, None, None, None)
    else Told(TaleOf(threshold, turns[..|turns| - 1]), threshold, Last(turns))
  }

  predicate NewHost(h: HostRec) {
    h.phase == Unset && h.claimRef.None? && !h.probed && h.failures == 0 && h.finalizer && !h.deleting
  }

  /** The record r of a host that was new as h. */
  predicate Tells(h: HostRec, r: HostRec, t: Tale) {
    && r.phase == t.phase && r.claimRef == t.claim && r.failures == t.streak
    && r.probed == (t.answer == Some(true))
    && r.maintenance == (if t.answer.None? then h.maintenance else t.answer.value)
    && r.talosVersion == (if t.version.None? then h.talosVersion else t.version.value)
    && (match t.found
        case None => r.arch == h.arch && r.platform == h.platform && r.hardware == h.hardware
        case Some(d) => r.arch == d.arch && r.platform == d.platform && r.hardware == Some(d.hardware))
    && r.publicIP == h.publicIP && r.failureDomain == h.failureDomain && r.finalizer && !r.deleting
  }

  /** What holds of every tale. */
  predicate Sound(t: Tale, threshold: nat) {
    && (t.claim.Some? <==> t.phase == Phase.Claimed)
    && (t.phase == Available || t.phase == Phase.Claimed ==>
          t.streak < threshold && t.answer.Some? && (t.answer.value <==> t.streak == 0))
    && (t.phase == Phase.Claimed ==> t.streak == 0)
  }

  predicate Labelled(r: HostRec) {
    r.phase == Available || r.phase == Phase.Claimed ==> AVAILABLE in r.labels && r.labels[AVAILABLE] == "true"
  }

  lemma AvailableIsOurs()
    ensures PREFIX <= AVAILABLE
  {
    assert AVAILABLE[..|PREFIX|] == PREFIX;
  }

  lemma DistinctKeys()
    ensures AVAILABLE !in {CPU_CORES, CPU_ARCH, MEMORY, DISK_TYPE, DISK_SIZE, PLATFORM, TALOS_VERSION, FAILURE_DOMAIN}
    ensures AVAILABLE !in {GPU_COUNT, GPU_VENDOR, GPU_MODEL}
  {
    assert AVAILABLE[8] == 'a';
    assert CPU_CORES[8] == 'c' && CPU_ARCH[8] == 'c' && MEMORY[8] == 'm' && DISK_TYPE[8] == 'd' && DISK_SIZE[8] == 'd';
    assert GPU_COUNT[8] == 'g' && GPU_VENDOR[8] == 'g' && GPU_MODEL[8] == 'g';
    assert PLATFORM[8] == 'p' && TALOS_VERSION[8] == 't' && FAILURE_DOMAIN[8] == 'f';
  }

  lemma DiskSaysNothing(d: Disk)
    ensures AVAILABLE !in DiskLabels(d)
  {
    hide AVAILABLE, DISK_TYPE, DISK_SIZE, SizeLabel, RoundQuantity, DiskTypeLabel;
    DistinctKeys();
  }

  lemma GpusSayNothing(g: Gpus)
    ensures AVAILABLE !in GpuLabels(g)
  {
    hide AVAILABLE, GPU_COUNT, GPU_VENDOR, GPU_MODEL, Decimal;
    DistinctKeys();
  }

  lemma HardwareSaysNothing(hw: Hardware)
    ensures AVAILABLE !in HardwareLabels(hw)
  {
    hide AVAILABLE, CPU_CORES, MEMORY, DiskLabels, GpuLabels, Decimal, SizeLabel, RoundQuantity, SystemDisk;
    DistinctKeys();
    if SystemDisk(hw.disks).Some? {
      DiskSaysNothing(SystemDisk(hw.disks).value);
    }
    if hw.gpus.Some? {
      GpusSayNothing(hw.gpus.value);
    }
  }

  lemma FeaturesSayNothing(h: HostRec)
    ensures AVAILABLE !in FeatureLabels(h)
  {
    hide AVAILABLE, CPU_ARCH, PLATFORM, TALOS_VERSION, FAILURE_DOMAIN, HardwareLabels;
    DistinctKeys();
    if h.hardware.Some? {
      HardwareSaysNothing(h.hardware.value);
    }
  }

  /** Whatever a report patches, the label says Available exactly when the phase does. */
  lemma {:induction false} LabelTellsPhase(h: HostRec)
    ensures var labels := DiscoveryLabels(h);
            (AVAILABLE in labels <==> h.phase == Available) && (AVAILABLE in labels ==> labels[AVAILABLE] == "true")
  {
    hide AVAILABLE, PREFIX, FeatureLabels;
    AvailableIsOurs();
    FeaturesSayNothing(h);
  }

  lemma TendIsTold(h: HostRec, r: HostRec, t: Tale, threshold: nat, probe: bool, found: Option<DiscoveryResult>)
    requires Tells(h, r, t) && Sound(t, threshold) && threshold > 0
    ensures var t' := Told(t, threshold, Tend(probe, found));
            Tells(h, Tended(r, threshold, probe, found), t') && Sound(t', threshold)
  {
    hide DiscoveryLabels;
  }

  lemma ClaimIsTold(h: HostRec, r: HostRec, t: Tale, threshold: nat, turn: Turn)
    requires Tells(h, r, t) && Sound(t, threshold) && !turn.Tend? && Take(r, threshold, turn).Some?
    ensures var t' := Told(t, threshold, turn);
            Tells(h, Take(r, threshold, turn).value, t') && Sound(t', threshold)
  {
    hide Tended, PREFIX;
  }

  lemma TurnIsTold(h: HostRec, r: HostRec, t: Tale, threshold: nat, turn: Turn)
    requires Tells(h, r, t) && Sound(t, threshold) && threshold > 0 && Take(r, threshold, turn).Some?
    ensures var t' := Told(t, threshold, turn);
            Tells(h, Take(r, threshold, turn).value, t') && Sound(t', threshold)
  {
    hide Tended, Told, Tells, Sound, PREFIX;
    match turn
    case Tend(probe, found) => TendIsTold(h, r, t, threshold, probe, found);
    case _ => ClaimIsTold(h, r, t, threshold, turn);
  }

  /** A report derives the labels from the record it patches. */
  lemma ReportSyncs(r: HostRec, report: Report, threshold: nat)
    ensures var q := Reported(r, report, threshold); q.labels == DiscoveryLabels(q.(labels := r.labels))
  {
    hide DiscoveryLabels;
  }

  lemma ReportIsLabelled(r: HostRec, report: Report, threshold: nat)
    ensures Labelled(Reported(r, report, threshold)) || Reported(r, report, threshold).phase == Phase.Claimed
  {
    hide DiscoveryLabels, AVAILABLE, Reported;
    ReportSyncs(r, report, threshold);
    LabelTellsPhase(Reported(r, report, threshold).(labels := r.labels));
  }

  /** Every reconcile of a host that is not claimed leaves under each of our keys what its record
      then says, and the operator's labels as they were. */
  lemma {:induction false} TendingSyncsLabels(h: HostRec, threshold: nat, probe: bool, found: Option<DiscoveryResult>, key: string)
    requires h.phase != Phase.Claimed
    ensures var r := Tended(h, threshold, probe, found);
            Entry(r.labels, key) == if Ours(key) then LabelOf(r, key) else Entry(h.labels, key)
  {
    hide Reported, DiscoveryLabels, Ours;
    var r := Tended(h, threshold, probe, found);
    var report := ReportOf(h.phase, probe, found).value;
    ReportSyncs(h, report, threshold);
    LabelsSay(r.(labels := h.labels), key);
    SameLabel(r, h.labels, key);
  }

  lemma SameLabel(r: HostRec, labels: map<string, string>, key: string)
    ensures LabelOf(r.(labels := labels), key) == LabelOf(r, key)
  {
  }

  lemma TurnLabels(r: HostRec, threshold: nat, turn: Turn)
    requires Labelled(r) && Take(r, threshold, turn).Some? && (r.claimRef.Some? ==> r.phase == Phase.Claimed)
    ensures Labelled(Take(r, threshold, turn).value)
  {
    hide AVAILABLE, PREFIX, Reported;
    AvailableIsOurs();
    if turn.Tend? && ReportOf(r.phase, turn.probe, turn.found).Some? {
      var report := ReportOf(r.phase, turn.probe, turn.found).value;
      ReportIsLabelled(r, report, threshold);
      NeverClaims(r, report, threshold);
    }
  }

  lemma NeverClaims(r: HostRec, report: Report, threshold: nat)
    requires r.phase != Phase.Claimed
    ensures Reported(r, report, threshold).phase != Phase.Claimed
  {
    hide DiscoveryLabels;
  }

  /** In every life of a host its record says what its turns tell. */
  lemma {:induction false} LifeIsTold(h: HostRec, threshold: nat, turns: seq<Turn>)
    requires NewHost(h) && threshold > 0 && Live(h, threshold, turns).Some?
    ensures Tells(h, Live(h, threshold, turns).value, TaleOf(threshold, turns)) && Sound(TaleOf(threshold, turns), threshold)
  {
    hide Tells, Sound, Take, Told;
    if turns == [] {
      NewTale(h, threshold);
    } else {
      var earlier := turns[..|turns| - 1];
      LifeIsTold(h, threshold, earlier);
      TurnIsTold(h, Live(h, threshold, earlier).value, TaleOf(threshold, earlier), threshold, Last(turns));
    }
  }

  lemma NewTale(h: HostRec, threshold: nat)
    requires NewHost(h)
    ensures Tells(h, h, Tale(Unset, None, 0, None, None, None)) && Sound(Tale(Unset, None, 0, None, None, None), threshold)
  {
  }

  lemma {:induction false} LifeIsLabelled(h: HostRec, threshold: nat, turns: seq<Turn>)
    requires NewHost(h) && threshold > 0 && Live(h, threshold, turns).Some?
    ensures Labelled(Live(h, threshold, turns).value)
  {
    hide Labelled, Take, Told;
    if turns == [] {
      NewIsLabelled(h);
    } else {
      var earlier := turns[..|turns| - 1];
      LifeIsTold(h, threshold, earlier);
      LifeIsLabelled(h, threshold, earlier);
      TurnLabels(Live(h, threshold, earlier).value, threshold, Last(turns));
    }
  }

  lemma NewIsLabelled(h: HostRec)
    requires NewHost(h)
    ensures Labelled(h)
  {
  }

  /** In every life of a host: it is claimed exactly in phase Claimed; an Available host has
      failed fewer probes in a row than the threshold, none if its probe condition is True;
      and its availability label is set. */
  lemma {:induction false} LifeIsSteady(h: HostRec, threshold: nat, turns: seq<Turn>)
    requires NewHost(h) && threshold > 0 && Live(h, threshold, turns).Some?
    ensures var r := Live(h, threshold, turns).value;
            && (r.claimRef.Some? <==> r.phase == Phase.Claimed)
            && (r.phase == Available || r.phase == Phase.Claimed ==>
                  && r.failures < threshold && (r.probed <==> r.failures == 0) && (r.maintenance <==> r.probed)
                  && AVAILABLE in r.labels && r.labels[AVAILABLE] == "true")
            && (r.phase == Phase.Claimed ==> r.failures == 0)
  {
    hide Live, TaleOf, AVAILABLE;
    LifeIsTold(h, threshold, turns);
    LifeIsLabelled(h, threshold, turns);
  }

  /** A host becomes Unavailable exactly by the failed probe that completes the threshold in
      a row, across any claims and releases in between. */
  lemma {:induction false} FlipsAtThreshold(h: HostRec, threshold: nat, turns: seq<Turn>, turn: Turn)
    requires NewHost(h) && threshold > 0 && Live(h, threshold, turns).Some?
    requires Take(Live(h, threshold, turns).value, threshold, turn).Some?
    ensures var before, after := Live(h, threshold, turns).value, Take(Live(h, threshold, turns).value, threshold, turn).value;
            before.phase != Unavailable ==>
              (after.phase == Unavailable <==>
               before.phase == Available && turn.Tend? && !turn.probe && TaleOf(threshold, turns).streak + 1 == threshold)
  {
    hide Live, TaleOf, Take, PREFIX;
    LifeIsTold(h, threshold, turns);
    TurnIsTold(h, Live(h, threshold, turns).value, TaleOf(threshold, turns), threshold, turn);
  }

  /** A machine can take a claim exactly of a host that is Available, unclaimed and answered when
      it was last asked. */
  lemma {:induction false} ClaimableWhenAnswering(h: HostRec, threshold: nat, turns: seq<Turn>, u: Uid)
    requires NewHost(h) && threshold > 0 && Live(h, threshold, turns).Some?
    ensures Take(Live(h, threshold, turns).value, threshold, Claim(u)).Some? <==>
            var t := TaleOf(threshold, turns); t.phase == Available && t.answer == Some(true)
  {
    hide Live, TaleOf;
    LifeIsTold(h, threshold, turns);
  }

  // ---------- The label as an index ----------

  function WithLabel(items: seq<Listed>, key: string, value: string): (kept: seq<Listed>)
    ensures forall c :: c in kept <==> c in items && key in c.rec.labels && c.rec.labels[key] == value
  {
    if items == [] then []
    else
      var rest := WithLabel(items[1..], key, value);
      if key in items[0].rec.labels && items[0].rec.labels[key] == value then [items[0]] + rest else rest
  }

  predicate DistinctNames(items: seq<Listed>) {
    forall c, d :: c in items && d in items && c.name == d.name ==> c == d
  }

  /** The selected host depends only on which candidates are listed. */
  lemma SameCandidates(items: seq<Listed>, items': seq<Listed>, u: Uid, want: string)
    requires DistinctNames(items)
    requires forall c: Listed :: Candidate(c.rec, u, want) ==> (c in items <==> c in items')
    ensures LeastCandidate(items, u, want) == LeastCandidate(items', u, want)
  {
    var a, b := LeastCandidate(items, u, want), LeastCandidate(items', u, want);
    if a.Some? && b.Some? {
      assert Candidate(a.value.rec, u, want) && Candidate(b.value.rec, u, want);
      StringLessTotal(a.value.name, b.value.name);
    }
  }

  /** No host is selected exactly when every listed host that is Available, answering and not
      another machine's is in another failure domain than the one that is wanted; a selected host
      is not, and no host that could have been selected has a smaller name. */
  lemma {:induction false} SelectionIs(items: seq<Listed>, u: Uid, want: string)
    ensures LeastCandidate(items, u, want).None? <==>
            forall c :: c in items && c.rec.phase == Available && c.rec.probed &&
                        (c.rec.claimRef == None || c.rec.claimRef == Some(u)) ==>
              want != "" && c.rec.failureDomain != "" && c.rec.failureDomain != want
    ensures var best := LeastCandidate(items, u, want);
            best.Some? ==>
              && best.value in items && best.value.rec.phase == Available && best.value.rec.probed
              && (best.value.rec.claimRef == None || best.value.rec.claimRef == Some(u))
              && (want != "" ==> best.value.rec.failureDomain in {"", want})
              && forall c :: c in items && c.rec.phase == Available && c.rec.probed &&
                             (c.rec.claimRef == None || c.rec.claimRef == Some(u)) &&
                             (want == "" || c.rec.failureDomain == "" || c.rec.failureDomain == want) ==>
                   c.name == best.value.name || StringLess(best.value.name, c.name)
  {
    var best := LeastCandidate(items, u, want);
    if best.Some? {
      forall c | c in items && Candidate(c.rec, u, want)
        ensures c.name == best.value.name || StringLess(best.value.name, c.name)
      {
        StringLessTotal(c.name, best.value.name);
      }
    }
  }

  /** In whatever order the API server lists the hosts, the same one is selected. */
  lemma {:induction false} ListOrderIsIrrelevant(items: seq<Listed>, items': seq<Listed>, u: Uid, want: string)
    requires DistinctNames(items) && multiset(items) == multiset(items')
    ensures LeastCandidate(items, u, want) == LeastCandidate(items', u, want)
  {
    forall c: Listed
      ensures c in items <==> c in items'
    {
      assert c in items <==> c in multiset(items);
      assert c in items' <==> c in multiset(items');
    }
    SameCandidates(items, items', u, want);
  }

  /** Hosts as their lives have left them. */
  ghost predicate AllLived(items: seq<Listed>, threshold: nat) {
    forall c :: c in items ==> exists h, turns :: NewHost(h) && Live(h, threshold, turns) == Some(c.rec)
  }

  /** Listing by the availability label and then filtering selects the same host as
      filtering all hosts. */
  lemma {:induction false} IndexAgreesWithScan(items: seq<Listed>, threshold: nat, u: Uid, want: string)
    requires DistinctNames(items) && threshold > 0 && AllLived(items, threshold)
    ensures LeastCandidate(WithLabel(items, AVAILABLE, "true"), u, want) == LeastCandidate(items, u, want)
  {
    forall c | c in items && Candidate(c.rec, u, want)
      ensures c in WithLabel(items, AVAILABLE, "true")
    {
      var h, turns :| NewHost(h) && Live(h, threshold, turns) == Some(c.rec);
      LifeIsSteady(h, threshold, turns);
    }
    SameCandidates(items, WithLabel(items, AVAILABLE, "true"), u, want);
  }
}
