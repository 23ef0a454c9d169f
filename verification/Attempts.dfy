/** What an upgrade attempt, an eviction and an adoption have physically done to the
    host, in every run in which no release clears another machine's claim. */
module Attempts {
  import opened Common
  import opened Records
  import opened MachineProtocol
  import opened World
  import opened HostHistory
  import opened Ownership
  import opened UpgradeRecord

  // ---------- The machine behind a host ----------

  /** Once rebooted, a machine runs what was last installed on it. */
  predicate Physical(h: Host) {
    h.installBoot <= h.boot && (h.installBoot < h.boot ==> h.running == h.installed)
  }

  /** What attempt t has left on its host. */
  predicate Tracks(h: Host, t: Attempt) {
    match t.installed
    case None => t.settled ==> h.installed == t.tag && h.running == t.tag
    case Some(k) =>
      && k <= h.boot && h.installBoot == k && h.image == t.ref
      && (t.settled && h.boot == k ==> h.running == t.tag)
  }

  /** The attempt's install is over and the host has rebooted since. */
  predicate RebootedSince(h: Host, t: Attempt) {
    t.installed.Some? && t.installed.value < h.boot
  }

  /** Boot-id id was read in a boot in which the attempt's install was already over. */
  predicate Captured(h: Host, t: Attempt, id: BootId) {
    id != 0 ==> t.installed.Some? && t.installed.value < id <= h.boot + 1
  }

  /** The running attempt of a reconcile that is issuing. */
  predicate Issues(hosts: map<HostName, Host>, a: Actor, h: History, tag: string, done: bool) {
    && h.attempt.Some? && h.attempt.value.host == Target(a) && Target(a) in hosts
    && h.attempt.value.ref == a.local.desired && h.attempt.value.tag == tag
    && h.attempt.value.installed.Some? == done
  }

  /** On the attempt's own host the reboot has been observed. */
  predicate Observed(hosts: map<HostName, Host>, a: Actor, h: History) {
    h.attempt.Some? && h.attempt.value.host == Target(a) && Target(a) in hosts ==>
      RebootedSince(hosts[Target(a)], h.attempt.value)
  }

  predicate Trusted(h: History) {
    !h.emptyTag && h.attempt.Some? && h.attempt.value.settled
  }

  predicate AttemptPc(hosts: map<HostName, Host>, a: Actor, h: History) {
    match a.pc
    case Gate(auth) => auth.Insecure? ==> !a.local.ready
    case Apply(auth) => auth.Insecure? ==> !a.local.ready
    case Preflight => !a.local.ready
    case WriteAhead(tag) => Issues(hosts, a, h, tag, false)
    case Issue => Issues(hosts, a, h, a.local.talosVersion, false)
    case Capture => Issues(hosts, a, h, a.local.talosVersion, true)
    case Restart(boot) =>
      Issues(hosts, a, h, a.local.talosVersion, true) && Captured(hosts[Target(a)], h.attempt.value, boot)
    case Stash(boot) =>
      Issues(hosts, a, h, a.local.talosVersion, true) && Captured(hosts[Target(a)], h.attempt.value, boot)
    case PollBoot => a.local.preRebootBoot != 0
    case PollTag => Observed(hosts, a, h)
    case HoldTag(tag) => tag == a.local.talosVersion || h.emptyTag
    case Completing(via, _) =>
      (via.ByBoot? ==> Observed(hosts, a, h)) && (via.ByTag? && Trusted(h) ==> Observed(hosts, a, h))
    case _ => true
  }

  /** The stored record against the attempt. */
  predicate AttemptRecord(hosts: map<HostName, Host>, s: MachineRec, h: History) {
    && (h.attempt.Some? ==>
          && h.attempt.value.host in hosts && Tracks(hosts[h.attempt.value.host], h.attempt.value)
          && (s.ready || s.upgrade == Failed))
    && (s.upgrade == InFlight ==>
          && h.attempt.Some?
          && (h.emptyTag || s.talosVersion == h.attempt.value.tag)
          && Captured(hosts[h.attempt.value.host], h.attempt.value, s.preRebootBoot))
  }

  predicate AttemptOk(hosts: map<HostName, Host>, m: Machine) {
    !m.hist.released ==> AttemptRecord(hosts, m.stored, m.hist) && AttemptPc(hosts, m.actor, m.hist)
  }

  /** A failed machine that is no longer ready was wiped. */
  predicate EvictedOk(hosts: map<HostName, Host>, m: Machine) {
    !m.hist.released && m.stored.upgrade == Failed && !m.stored.ready ==>
      m.hist.evicted.Some? && Unconfigured(hosts, m.hist.evicted.value)
  }

  predicate ProviderOk(hosts: map<HostName, Host>, s: MachineRec, h: History) {
    s.providerID != "" ==>
      && h.adopted.Some? && h.adopted.value in hosts && hosts[h.adopted.value].versions != []
      && s.providerID == PROVIDER_PREFIX + hosts[h.adopted.value].versions[0].publicIP
  }

  predicate MachineFollowed(hosts: map<HostName, Host>, m: Machine) {
    AttemptOk(hosts, m) && EvictedOk(hosts, m) && ProviderOk(hosts, m.stored, m.hist)
  }

  ghost predicate Followed(w: World) {
    && Owned(w) && Booked(w)
    && (forall name :: name in w.hosts ==> Physical(w.hosts[name]))
    && (forall u :: u in w.machines ==> MachineFollowed(w.hosts, w.machines[u]))
  }

  // ---------- Other actors' steps ----------

  lemma TracksOn(h: Host, h': Host, t: Attempt)
    requires Tracks(h, t) && SameDisk(h, h')
    ensures Tracks(h', t)
    ensures RebootedSince(h, t) ==> RebootedSince(h', t)
    ensures forall id :: Captured(h, t, id) ==> Captured(h', t, id)
  {
  }

  lemma StableAttempt(hosts: map<HostName, Host>, hosts': map<HostName, Host>, u: Uid, m: Machine, m': Machine)
    requires AttemptOk(hosts, m) && Rely(u, hosts, hosts')
    requires !m.hist.released && m.hist.attempt.Some? ==> Owns(hosts, m.hist.attempt.value.host, u)
    requires m'.actor == m.actor && m'.hist == m.hist && SpecEdit(m.stored, m'.stored)
    ensures AttemptOk(hosts', m')
  {
    if !m.hist.released && m.hist.attempt.Some? {
      var t := m.hist.attempt.value;
      assert Owns(hosts, t.host, u);
      TracksOn(hosts[t.host], hosts'[t.host], t);
    }
  }

  // ---------- The acting machine ----------

  lemma HistoryAttempt(hosts: map<HostName, Host>, m: Machine, act: Act)
    requires !(act.ReadVersion? && m.actor.pc.PreProbe?) && !act.Install?
    ensures var h, h' := m.hist, HistoryAfter(hosts, m, act);
            && h'.attempt == h.attempt && (h.emptyTag ==> h'.emptyTag)
            && (!act.ReadVersion? ==> h'.emptyTag == h.emptyTag)
  {
  }

  /** Only an install, or a first apply in maintenance, changes what is on disk. */
  lemma OwnSameDisk(hosts: map<HostName, Host>, u: Uid, m: Machine, act: Act, name: HostName)
    requires Possible(hosts, m, act) && name in hosts && !act.Install?
    requires act.ApplyConfig? ==> m.actor.pc.Apply? && !m.actor.pc.auth.Insecure?
    ensures name in HostsAfter(hosts, u, m, act) && SameDisk(hosts[name], HostsAfter(hosts, u, m, act)[name])
  {
  }

  /** One act of machine u: the hosts it finds and the machine before and after. */
  ghost predicate Acted(hosts: map<HostName, Host>, u: Uid, m: Machine, m': Machine, act: Act) {
    && Move(u, m.spec, m.actor, act) == Some(m'.actor) && Possible(hosts, m, act)
    && m'.spec == m.spec && m'.stored == StoredAfter(m, act) && m'.hist == HistoryAfter(hosts, m, act)
  }

  lemma RecordKept(hosts: map<HostName, Host>, hosts': map<HostName, Host>, s: MachineRec, h: History, h': History)
    requires AttemptRecord(hosts, s, h) && h'.attempt == h.attempt && (h.emptyTag ==> h'.emptyTag)
    requires h.attempt.Some? ==>
               var name := h.attempt.value.host; name in hosts' && (name in hosts ==> SameDisk(hosts[name], hosts'[name]))
    ensures AttemptRecord(hosts', s, h') && AttemptRecord(hosts', s.(finalizer := false), h')
    ensures AttemptRecord(hosts', s.(finalizer := true), h')
  {
    if h.attempt.Some? {
      var name := h.attempt.value.host;
      TracksOn(hosts[name], hosts'[name], h.attempt.value);
    }
  }

  // ---- a reconcile begins ----

  lemma AttemptStart(hosts: map<HostName, Host>, u: Uid, m: Machine, m': Machine, act: Act)
    requires Acted(hosts, u, m, m', act) && (act.Start? || act.StartDelete?)
    requires AttemptOk(hosts, m)
    ensures AttemptOk(hosts, m')
  {
  }

  // ---- a patch ----

  lemma PatchedPc(hosts: map<HostName, Host>, spec: MachineSpec, a: Actor, h: History)
    requires Intended(a).Some? && AttemptPc(hosts, a, h)
    ensures AttemptPc(hosts, a.(local := Intended(a).value, pc := AfterPatch(spec, a.pc, Intended(a).value, a.hash)), h)
  {
  }

  /** The patched record, from the in-memory one it now agrees with. */
  lemma PatchedRecord(hosts: map<HostName, Host>, s: MachineRec, a: Actor, h: History)
    requires UpgradeOk(StageOf(a.pc), s, a.base, a.local, h) && TagKept(a) && Intended(a).Some?
    requires PatchSyncs(s, a) && AttemptPc(hosts, a, h) && AttemptRecord(hosts, s, h)
    ensures AttemptRecord(hosts, PatchMachine(s, PatchBase(a), Intended(a).value), h)
  {
    hide PatchMachine, UpgradeOk, Tracks, Captured, Issues, PatchSyncs;
    if a.pc.WriteAhead? || a.pc.Stash? || a.pc.HoldBoot? || a.pc.HoldTag? || a.pc.CountFailure? {
      LocalUpgrade(hosts, s, a, h);
    } else {
      LocalRest(hosts, s, a, h);
    }
    CommittedRecord(hosts, s, a, h);
  }

  /** The in-memory record satisfies the same facts as the stored one, after the patch too. */
  lemma LocalUpgrade(hosts: map<HostName, Host>, s: MachineRec, a: Actor, h: History)
    requires UpgradeOk(StageOf(a.pc), s, a.base, a.local, h)
    requires a.pc.WriteAhead? || a.pc.Stash? || a.pc.HoldBoot? || a.pc.HoldTag? || a.pc.CountFailure?
    requires AttemptPc(hosts, a, h) && AttemptRecord(hosts, s, h)
    ensures AttemptRecord(hosts, Intended(a).value, h)
  {
    hide Journal, Tracks, Linkable, AlreadyApplied;
  }

  lemma LocalRest(hosts: map<HostName, Host>, s: MachineRec, a: Actor, h: History)
    requires UpgradeOk(StageOf(a.pc), s, a.base, a.local, h) && Intended(a).Some?
    requires !a.pc.WriteAhead? && !a.pc.Stash? && !a.pc.HoldBoot? && !a.pc.HoldTag? && !a.pc.CountFailure?
    requires AttemptPc(hosts, a, h) && AttemptRecord(hosts, s, h)
    ensures AttemptRecord(hosts, Intended(a).value, h)
    ensures a.pc.GiveUp? ==> Intended(a).value.ready
  {
    hide Journal, Tracks, Linkable, AlreadyApplied;
  }

  lemma CommittedRecord(hosts: map<HostName, Host>, s: MachineRec, a: Actor, h: History)
    requires Intended(a).Some? && PatchSyncs(s, a) && AttemptRecord(hosts, Intended(a).value, h)
    requires a.pc.GiveUp? ==> Intended(a).value.ready
    ensures AttemptRecord(hosts, PatchMachine(s, PatchBase(a), Intended(a).value), h)
  {
    hide PatchMachine, Tracks;
  }

  lemma AttemptPatch(hosts: map<HostName, Host>, u: Uid, m: Machine, m': Machine, act: Act)
    requires Acted(hosts, u, m, m', act) && act.Patch?
    requires BookOk(m) && AttemptOk(hosts, m)
    ensures AttemptOk(hosts, m')
  {
    hide UpgradeOk, PatchMachine, Intended, AfterPatch, AttemptRecord, AttemptPc, PatchSyncs, TagKept, HistoryAfter, Possible;
    if !m'.hist.released {
      HistoryAttempt(hosts, m, act);
      HistoryReleased(hosts, m, act);
      PatchedPc(hosts, m.spec, m.actor, m.hist);
      Syncs(m.stored, m.actor, m.hist);
      PatchedRecord(hosts, m.stored, m.actor, m.hist);
      SameAttempt(hosts, m'.stored, m'.actor, m.hist, m'.hist);
    }
  }

  lemma SameAttempt(hosts: map<HostName, Host>, s: MachineRec, a: Actor, h: History, h': History)
    requires AttemptRecord(hosts, s, h) && AttemptPc(hosts, a, h)
    requires h'.attempt == h.attempt && h'.emptyTag == h.emptyTag
    ensures AttemptRecord(hosts, s, h') && AttemptPc(hosts, a, h')
  {
  }

  // ---- an answer ----

  /** Every act but an install and the first apply leaves the record's facts alone. */
  lemma ActKeepsRecord(hosts: map<HostName, Host>, u: Uid, m: Machine, m': Machine, act: Act)
    requires Acted(hosts, u, m, m', act) && AttemptRecord(hosts, m.stored, m.hist)
    requires !act.Start? && !act.StartDelete? && !act.Patch? && !act.Install?
    requires act.ApplyConfig? ==> m.actor.pc.Apply? && !m.actor.pc.auth.Insecure?
    requires !(act.ReadVersion? && m.actor.pc.PreProbe?)
    ensures AttemptRecord(HostsAfter(hosts, u, m, act), m'.stored, m'.hist)
  {
    hide Move, AttemptRecord, SameDisk, Possible, HistoryAfter, HostsAfter, StoredAfter;
    HistoryAttempt(hosts, m, act);
    AttemptHost(hosts, m.stored, m.hist);
    StoredByAnswer(m, act);
    if m.hist.attempt.Some? {
      OwnSameDisk(hosts, u, m, act, m.hist.attempt.value.host);
    }
    RecordKept(hosts, HostsAfter(hosts, u, m, act), m.stored, m.hist, m'.hist);
  }

  lemma StoredByAnswer(m: Machine, act: Act)
    requires !act.Start? && !act.Patch?
    ensures StoredAfter(m, act) == m.stored || StoredAfter(m, act) == m.stored.(finalizer := false)
  {
  }

  lemma AttemptHost(hosts: map<HostName, Host>, s: MachineRec, h: History)
    requires AttemptRecord(hosts, s, h)
    ensures h.attempt.Some? ==> h.attempt.value.host in hosts
  {
  }

  lemma ClaimPcOk(hosts: map<HostName, Host>, hosts': map<HostName, Host>, u: Uid, spec: MachineSpec, a: Actor, h: History,
                  h': History, act: Act)
    requires ClaimMove(u, spec, a, act).Some?
    ensures AttemptPc(hosts', ClaimMove(u, spec, a, act).value, h')
  {
  }

  lemma AdoptPcOk(hosts: map<HostName, Host>, hosts': map<HostName, Host>, spec: MachineSpec, a: Actor, h: History,
                  h': History, act: Act)
    requires AdoptMove(spec, a, act).Some? && AttemptPc(hosts, a, h)
    ensures AttemptPc(hosts', AdoptMove(spec, a, act).value, h')
  {
  }

  lemma FinalPcOk(hosts: map<HostName, Host>, spec: MachineSpec, a: Actor, h: History, act: Act)
    requires FinalMove(a, act).Some?
    ensures AttemptPc(hosts, FinalMove(a, act).value, h)
  {
  }

  /** The first apply happens before there is any attempt. */
  lemma FirstApply(hosts: map<HostName, Host>, m: Machine)
    requires BookOk(m) && AttemptRecord(hosts, m.stored, m.hist) && AttemptPc(hosts, m.actor, m.hist)
    requires m.actor.pc.Apply? && m.actor.pc.auth.Insecure?
    ensures m.hist.attempt.None? && m.stored.upgrade != InFlight
  {
  }

  lemma AttemptAdopt(hosts: map<HostName, Host>, u: Uid, m: Machine, m': Machine, act: Act)
    requires Acted(hosts, u, m, m', act) && AdoptAct(act)
    requires BookOk(m) && AttemptOk(hosts, m)
    ensures AttemptOk(HostsAfter(hosts, u, m, act), m')
  {
    hide BookOk, AttemptRecord, AttemptPc, AdoptMove, Possible, HistoryAfter, HostsAfter;
    if !m'.hist.released {
      var hosts' := HostsAfter(hosts, u, m, act);
      HistoryAttempt(hosts, m, act);
      HistoryReleased(hosts, m, act);
      AdoptPcOk(hosts, hosts', m.spec, m.actor, m.hist, m'.hist, act);
      if act.ApplyConfig? {
        ApplyPc(m.spec, m.actor, act);
      }
      if m.actor.pc.Apply? && m.actor.pc.auth.Insecure? {
        FirstApply(hosts, m);
        NoAttempt(hosts', m'.stored, m'.hist);
      } else {
        ActKeepsRecord(hosts, u, m, m', act);
      }
    }
  }

  lemma ApplyPc(spec: MachineSpec, a: Actor, act: Act)
    requires AdoptMove(spec, a, act).Some? && act.ApplyConfig?
    ensures a.pc.Apply?
  {
  }

  lemma NoAttempt(hosts: map<HostName, Host>, s: MachineRec, h: History)
    requires h.attempt.None? && s.upgrade != InFlight
    ensures AttemptRecord(hosts, s, h)
  {
  }

  lemma AttemptClaim(hosts: map<HostName, Host>, u: Uid, m: Machine, m': Machine, act: Act)
    requires Acted(hosts, u, m, m', act) && ClaimAct(act)
    requires AttemptOk(hosts, m)
    ensures AttemptOk(HostsAfter(hosts, u, m, act), m')
  {
    hide AttemptRecord, AttemptPc, ClaimMove, Possible, HistoryAfter, HostsAfter;
    if !m'.hist.released {
      HistoryReleased(hosts, m, act);
      ClaimPcOk(hosts, HostsAfter(hosts, u, m, act), u, m.spec, m.actor, m.hist, m'.hist, act);
      ActKeepsRecord(hosts, u, m, m', act);
    }
  }

  lemma AttemptFinal(hosts: map<HostName, Host>, u: Uid, m: Machine, m': Machine, act: Act)
    requires Acted(hosts, u, m, m', act) && !ClaimAct(act) && !AdoptAct(act) && !UpgradeAct(act)
    requires !act.Start? && !act.StartDelete? && !act.Patch?
    requires AttemptOk(hosts, m)
    ensures AttemptOk(HostsAfter(hosts, u, m, act), m')
  {
    hide AttemptRecord, AttemptPc, FinalMove, Possible, HistoryAfter, HostsAfter;
    if !m'.hist.released {
      HistoryReleased(hosts, m, act);
      FinalPcOk(HostsAfter(hosts, u, m, act), m.spec, m.actor, m'.hist, act);
      ActKeepsRecord(hosts, u, m, m', act);
    }
  }

  // ---- an upgrade RPC ----

  lemma AttemptPreProbe(hosts: map<HostName, Host>, u: Uid, m: Machine, m': Machine, act: Act)
    requires Acted(hosts, u, m, m', act) && act.ReadVersion? && m.actor.pc.PreProbe?
    requires BookOk(m) && AttemptOk(hosts, m)
    ensures AttemptOk(HostsAfter(hosts, u, m, act), m')
  {
    hide Journal;
  }

  /** A changed tag on a host that was settled when the attempt began means a reboot. */
  lemma ChangedTag(h: Host, t: Attempt)
    requires Tracks(h, t) && t.settled && h.running != t.tag
    ensures RebootedSince(h, t)
  {
  }

  lemma AttemptReadTag(hosts: map<HostName, Host>, u: Uid, m: Machine, m': Machine, act: Act)
    requires Acted(hosts, u, m, m', act) && act.ReadVersion? && !m.actor.pc.PreProbe?
    requires BookOk(m) && AttemptOk(hosts, m)
    ensures AttemptOk(HostsAfter(hosts, u, m, act), m')
  {
    hide Journal, Tracks, SameAdoption;
    if !m'.hist.released {
      HistoryAttempt(hosts, m, act);
      if m.actor.pc.Fallback? && Trusted(m.hist) && m.hist.attempt.value.host == Target(m.actor) && m'.actor.pc.Completing? {
        ChangedTag(hosts[Target(m.actor)], m.hist.attempt.value);
      }
    }
  }

  lemma AttemptInstall(hosts: map<HostName, Host>, u: Uid, m: Machine, m': Machine, act: Act)
    requires Acted(hosts, u, m, m', act) && act.Install?
    requires BookOk(m) && AttemptOk(hosts, m)
    ensures AttemptOk(HostsAfter(hosts, u, m, act), m')
  {
    hide Journal, SameAdoption;
  }

  lemma AttemptReboot(hosts: map<HostName, Host>, u: Uid, m: Machine, m': Machine, act: Act)
    requires Acted(hosts, u, m, m', act) && (act.CaptureBoot? || act.Reboot?)
    requires BookOk(m) && AttemptOk(hosts, m)
    ensures AttemptOk(HostsAfter(hosts, u, m, act), m')
  {
    hide Journal, SameAdoption;
  }

  lemma AttemptReadBoot(hosts: map<HostName, Host>, u: Uid, m: Machine, m': Machine, act: Act)
    requires Acted(hosts, u, m, m', act) && act.ReadBoot?
    requires BookOk(m) && AttemptOk(hosts, m)
    ensures AttemptOk(HostsAfter(hosts, u, m, act), m')
  {
    hide Journal, SameAdoption;
  }

  lemma OwnAttempt(hosts: map<HostName, Host>, u: Uid, m: Machine, m': Machine, act: Act)
    requires Acted(hosts, u, m, m', act) && BookOk(m) && AttemptOk(hosts, m)
    ensures AttemptOk(HostsAfter(hosts, u, m, act), m')
  {
    hide Acted, AttemptOk, BookOk, HostsAfter;
    if act.Start? || act.StartDelete? {
      AttemptStart(hosts, u, m, m', act);
      SameHosts(hosts, u, m, m', act);
    } else if act.Patch? {
      AttemptPatch(hosts, u, m, m', act);
      SameHosts(hosts, u, m, m', act);
    } else if ClaimAct(act) {
      AttemptClaim(hosts, u, m, m', act);
    } else if AdoptAct(act) {
      AttemptAdopt(hosts, u, m, m', act);
    } else if act.Install? {
      AttemptInstall(hosts, u, m, m', act);
    } else if act.ReadVersion? {
      if m.actor.pc.PreProbe? {
        AttemptPreProbe(hosts, u, m, m', act);
      } else {
        AttemptReadTag(hosts, u, m, m', act);
      }
    } else if act.ReadBoot? {
      AttemptReadBoot(hosts, u, m, m', act);
    } else if UpgradeAct(act) {
      AttemptReboot(hosts, u, m, m', act);
    } else {
      AttemptFinal(hosts, u, m, m', act);
    }
  }

  lemma SameHosts(hosts: map<HostName, Host>, u: Uid, m: Machine, m': Machine, act: Act)
    requires Acted(hosts, u, m, m', act) && (act.Start? || act.StartDelete? || act.Patch?)
    ensures HostsAfter(hosts, u, m, act) == hosts
  {
  }

  // ---------- Evictions and provider ids ----------

  lemma FailedStays(s: MachineRec, a: Actor, h: History)
    requires UpgradeOk(StageOf(a.pc), s, a.base, a.local, h) && TagKept(a) && Intended(a).Some?
    requires !a.pc.FailClear?
    requires var s' := PatchMachine(s, PatchBase(a), Intended(a).value); s'.upgrade == Failed && !s'.ready
    ensures s.upgrade == Failed && !s.ready
  {
    hide PatchMachine, Journal;
    Syncs(s, a, h);
  }

  /** A reconcile that finds the machine failed and not ready never reaches an apply. */
  lemma NoApplyWhileFailed(m: Machine)
    requires BookOk(m) && m.stored.upgrade == Failed && !m.stored.ready
    ensures StageOf(m.actor.pc) in {Resting, Leaving, Claiming, Linking}
  {
    hide Journal;
  }

  lemma EvictedPatch(hosts: map<HostName, Host>, u: Uid, m: Machine, m': Machine, act: Act)
    requires Acted(hosts, u, m, m', act) && BookOk(m) && OwnershipOk(hosts, u, m) && EvictedOk(hosts, m) && act.Patch?
    requires forall name :: name in hosts ==> ConfigOk(hosts[name])
    ensures EvictedOk(hosts, m')
  {
    hide PatchMachine, Intended, AfterPatch, UpgradeOk, TagKept, OwnershipOk, ConfigOk;
    if m.actor.pc.FailClear? && !m.hist.released {
      WipedOut(hosts, u, m);
      ClearingHost(hosts, u, m);
    }
    if !m'.hist.released && m'.stored.upgrade == Failed && !m'.stored.ready && !m.actor.pc.FailClear? {
      FailedStays(m.stored, m.actor, m.hist);
    }
  }

  lemma ClearingHost(hosts: map<HostName, Host>, u: Uid, m: Machine)
    requires OwnershipOk(hosts, u, m) && m.actor.pc.FailClear?
    ensures m.actor.local.resolvedHost.Some?
  {
  }

  lemma ConfiguredByApply(hosts: map<HostName, Host>, u: Uid, m: Machine, act: Act, name: HostName)
    requires Possible(hosts, m, act) && Unconfigured(hosts, name) && !act.ApplyConfig?
    ensures Unconfigured(HostsAfter(hosts, u, m, act), name)
  {
  }

  lemma FailureByPatch(m: Machine, act: Act)
    requires !act.Patch? && (act.Start? ==> act.self == m.stored.(finalizer := true))
    ensures StoredAfter(m, act).upgrade == m.stored.upgrade && StoredAfter(m, act).ready == m.stored.ready
    ensures StoredAfter(m, act).providerID == m.stored.providerID
  {
  }

  lemma EvictedByPatch(hosts: map<HostName, Host>, m: Machine, act: Act)
    requires !act.Patch?
    ensures HistoryAfter(hosts, m, act).evicted == m.hist.evicted
    ensures HistoryAfter(hosts, m, act).adopted == m.hist.adopted
  {
  }

  lemma EvictedAnswer(hosts: map<HostName, Host>, u: Uid, m: Machine, m': Machine, act: Act)
    requires Acted(hosts, u, m, m', act) && BookOk(m) && EvictedOk(hosts, m) && !act.Patch?
    ensures EvictedOk(HostsAfter(hosts, u, m, act), m')
  {
    hide BookOk, HostsAfter, StoredAfter, HistoryAfter, Unconfigured, ClaimMove, UpgradeMove, FinalMove;
    FailureByPatch(m, act);
    EvictedByPatch(hosts, m, act);
    HistoryReleased(hosts, m, act);
    if !m'.hist.released && m'.stored.upgrade == Failed && !m'.stored.ready {
      NoApplyWhileFailed(m);
      ConfiguredByApply(hosts, u, m, act, m.hist.evicted.value);
    }
  }

  lemma OwnEvicted(hosts: map<HostName, Host>, u: Uid, m: Machine, m': Machine, act: Act)
    requires Acted(hosts, u, m, m', act) && BookOk(m) && OwnershipOk(hosts, u, m) && EvictedOk(hosts, m)
    requires forall name :: name in hosts ==> ConfigOk(hosts[name])
    ensures EvictedOk(HostsAfter(hosts, u, m, act), m')
  {
    hide Acted, BookOk, OwnershipOk, EvictedOk, HostsAfter, ConfigOk;
    if act.Patch? {
      EvictedPatch(hosts, u, m, m', act);
      SameHosts(hosts, u, m, m', act);
    } else {
      EvictedAnswer(hosts, u, m, m', act);
    }
  }

  lemma StableEvicted(hosts: map<HostName, Host>, hosts': map<HostName, Host>, u: Uid, m: Machine, m': Machine)
    requires EvictedOk(hosts, m) && OwnershipOk(hosts, u, m) && Rely(u, hosts, hosts')
    requires m'.hist == m.hist && SpecEdit(m.stored, m'.stored)
    ensures EvictedOk(hosts', m')
  {
    if !m.hist.released && m.hist.evicted.Some? {
      assert Holds(m, m.hist.evicted.value);
      assert Owns(hosts, m.hist.evicted.value, u);
    }
  }

  lemma ProviderPatch(hosts: map<HostName, Host>, s: MachineRec, a: Actor, h: History, h': History)
    requires Intended(a).Some? && PatchSyncs(s, a) && SameAdoption(s, a.local)
    requires Resolved(hosts, a.local) && (a.pc.Adopt? ==> a.local.resolvedHost.Some?)
    requires ProviderOk(hosts, s, h) && h'.adopted == (if a.pc.Adopt? then a.local.resolvedHost else h.adopted)
    ensures ProviderOk(hosts, PatchMachine(s, PatchBase(a), Intended(a).value), h')
  {
    hide PatchMachine, SameUpgrade;
  }

  lemma PatchingPc(m: Machine)
    requires BookOk(m) && Intended(m.actor).Some?
    ensures !m.actor.pc.Idle? && SameAdoption(m.stored, m.actor.local)
  {
    hide Journal, Staged, SameUpgrade;
  }

  lemma ProviderGrows(hosts: map<HostName, Host>, hosts': map<HostName, Host>, s: MachineRec, h: History)
    requires ProviderOk(hosts, s, h) && HostsGrow(hosts, hosts')
    ensures ProviderOk(hosts', s, h)
  {
    if s.providerID != "" {
      assert Grows(hosts[h.adopted.value], hosts'[h.adopted.value]);
    }
  }

  lemma OwnProvider(hosts: map<HostName, Host>, u: Uid, m: Machine, m': Machine, act: Act)
    requires Acted(hosts, u, m, m', act) && BookOk(m) && MachineOk(hosts, u, m.stored, m.actor)
    requires m.actor.pc.Adopt? ==> m.actor.local.resolvedHost.Some?
    requires ProviderOk(hosts, m.stored, m.hist)
    ensures ProviderOk(hosts, m'.stored, m'.hist)
  {
    hide PatchMachine, Intended, AfterPatch, UpgradeOk, TagKept, Resolved, PcOk, ClaimMove, AdoptMove, UpgradeMove, FinalMove;
    if act.Patch? {
      PatchingPc(m);
      Syncs(m.stored, m.actor, m.hist);
      ProviderPatch(hosts, m.stored, m.actor, m.hist, m'.hist);
    } else {
      FailureByPatch(m, act);
      EvictedByPatch(hosts, m, act);
    }
  }

  // ---------- Every run in which nothing is stolen ----------

  lemma PhysicalOn(hosts: map<HostName, Host>, m: Machine, u: Uid, act: Act, name: HostName)
    requires Possible(hosts, m, act) && name in hosts && Physical(hosts[name])
    ensures name in HostsAfter(hosts, u, m, act) && Physical(HostsAfter(hosts, u, m, act)[name])
  {
  }

  lemma PhysicalHost(h: Host, h': Host)
    requires Physical(h) && SameDisk(h, h')
    ensures Physical(h')
  {
  }

  lemma PhysicalStep(w: World, step: Step, name: HostName)
    requires Recorded(w) && Next(w, step).Some? && name in w.hosts && Physical(w.hosts[name])
    ensures name in Next(w, step).value.hosts && Physical(Next(w, step).value.hosts[name])
  {
    hide Next, HostsAfter, Possible, Move, HostNext, HostEvent, MachineOk, HostOk, Physical, Undisturbed;
    match step
    case MachineStep(u, act) =>
      OwnStep(w, u, act);
      PhysicalOn(w.hosts, w.machines[u], u, act, name);
    case HostStep(x, act) =>
      UnclaimedStep(w, step);
      HostNextUndisturbed(w.hosts[x], act);
      UndisturbedDisk(w.hosts[x], HostNext(w.hosts[x], act).value);
      if x == name {
        PhysicalHost(w.hosts[name], HostNext(w.hosts[x], act).value);
      }
    case Outside(event) =>
      UnclaimedStep(w, step);
      if Next(w, step).value.hosts != w.hosts && event.host == name {
        HostEventUndisturbed(w.hosts[name], event);
        UndisturbedDisk(w.hosts[name], HostEvent(w.hosts[name], event).value);
        PhysicalHost(w.hosts[name], HostEvent(w.hosts[name], event).value);
      }
  }

  lemma UndisturbedDisk(h: Host, h': Host)
    requires Undisturbed(h, h')
    ensures SameDisk(h, h')
  {
  }

  lemma OwnFollowed(w: World, u: Uid, act: Act)
    requires Followed(w) && Next(w, MachineStep(u, act)).Some?
    ensures var w' := Next(w, MachineStep(u, act)).value; u in w'.machines && MachineFollowed(w'.hosts, w'.machines[u])
  {
    hide Next, HostsAfter, Possible, Move, MachineOk, BookOk, AttemptOk, EvictedOk, ProviderOk, HostsGrow, ConfigOk;
    OwnStep(w, u, act);
    var w' := Next(w, MachineStep(u, act)).value;
    var m, m' := w.machines[u], w'.machines[u];
    OwnAttempt(w.hosts, u, m, m', act);
    OwnEvicted(w.hosts, u, m, m', act);
    OwnProvider(w.hosts, u, m, m', act);
    StepGrowsHosts(w, MachineStep(u, act));
    ProviderGrows(w.hosts, w'.hosts, m'.stored, m'.hist);
  }

  lemma OwnsAttemptHost(hosts: map<HostName, Host>, u: Uid, m: Machine)
    requires OwnershipOk(hosts, u, m)
    ensures !m.hist.released && m.hist.attempt.Some? ==> Owns(hosts, m.hist.attempt.value.host, u)
  {
    if !m.hist.released && m.hist.attempt.Some? {
      assert Holds(m, m.hist.attempt.value.host);
    }
  }

  lemma OthersFollowed(w: World, step: Step, u: Uid)
    requires Followed(w) && Next(w, step).Some? && u in w.machines && !(step.MachineStep? && step.u == u) && !Steals(w, step)
    ensures var w' := Next(w, step).value; u in w'.machines && MachineFollowed(w'.hosts, w'.machines[u])
  {
    hide Next, MachineOk, BookOk, OwnershipOk, AttemptOk, EvictedOk, ProviderOk, HostsGrow, SpecEdit, Rely, ConfigOk, Steals;
    OthersStep(w, step, u);
    var w' := Next(w, step).value;
    var m, m' := w.machines[u], w'.machines[u];
    RelyStep(w, step, u);
    StepGrowsHosts(w, step);
    OwnsAttemptHost(w.hosts, u, m);
    StableAttempt(w.hosts, w'.hosts, u, m, m');
    StableEvicted(w.hosts, w'.hosts, u, m, m');
    ProviderGrows(w.hosts, w'.hosts, m.stored, m.hist);
    ProviderEdit(w'.hosts, m.stored, m'.stored, m.hist);
  }

  lemma ProviderEdit(hosts: map<HostName, Host>, s: MachineRec, s': MachineRec, h: History)
    requires ProviderOk(hosts, s, h) && SpecEdit(s, s')
    ensures ProviderOk(hosts, s', h)
  {
  }

  lemma FollowedStep(w: World, step: Step)
    requires Followed(w) && Next(w, step).Some? && !Steals(w, step)
    ensures Followed(Next(w, step).value)
  {
    hide Next, Owned, Booked, Physical, MachineFollowed, Steals;
    var w' := Next(w, step).value;
    OwnedStep(w, step);
    BookedStep(w, step);
    StepKeepsMachines(w, step);
    OwnedIsRecorded(w);
    SameNames(w, step);
    forall name | name in w'.hosts
      ensures Physical(w'.hosts[name])
    {
      PhysicalStep(w, step, name);
    }
    forall u | u in w'.machines
      ensures MachineFollowed(w'.hosts, w'.machines[u])
    {
      if step.MachineStep? && step.u == u {
        OwnFollowed(w, u, step.act);
      } else {
        OthersFollowed(w, step, u);
      }
    }
  }

  lemma OwnedIsRecorded(w: World)
    requires Owned(w)
    ensures Recorded(w)
  {
  }

  lemma SameNames(w: World, step: Step)
    requires Recorded(w) && Next(w, step).Some?
    ensures Next(w, step).value.hosts.Keys == w.hosts.Keys
  {
    hide Next, Recorded;
    StepGrowsHosts(w, step);
  }

  lemma InitFollowed(w: World)
    requires Init(w)
    ensures Followed(w)
  {
    hide Owned, Booked;
    InitOwned(w);
    InitBooked(w);
  }

  lemma {:induction false} FollowedAlways(w: World, log: seq<Step>)
    requires Init(w) && Play(w, log).Some? && NothingStolen(w, log)
    ensures Followed(Play(w, log).value)
  {
    hide Init, Followed, Next, Steals;
    if log == [] {
      InitFollowed(w);
    } else {
      FollowedAlways(w, log[..|log| - 1]);
      FollowedStep(Play(w, log[..|log| - 1]).value, Last(log));
    }
  }
}
