/** Who owns which host, and whose config is on which disk, in runs in which no release
    clears the claim of another machine. */
module Ownership {
  import opened Common
  import opened Records
  import opened HostProtocol
  import opened MachineProtocol
  import opened World
  import opened HostHistory

  /** The check that releaseHost omits: the record it releases carries no claim, or its own. */
  predicate FairRelease(u: Uid, a: Actor) {
    a.pc.ReleasePut? ==> a.pc.seen.claimRef in {None, Some(u)}
  }

  /** A release write that clears the claim of another machine. */
  predicate Steals(w: World, step: Step) {
    && step.MachineStep? && step.u in w.machines && step.act.PutStatus? && step.act.ok
    && !FairRelease(step.u, w.machines[step.u].actor)
  }

  /** A run in which no release does that, though releases may be executed again. */
  predicate NothingStolen(w: World, log: seq<Step>) {
    log == [] ||
    (NothingStolen(w, log[..|log| - 1]) &&
     (Play(w, log[..|log| - 1]).Some? ==> !Steals(Play(w, log[..|log| - 1]).value, Last(log))))
  }

  function Claimant(h: Host): Option<Uid> {
    if h.gone || h.versions == [] then None else Last(h.versions).claimRef
  }

  predicate Owns(hosts: map<HostName, Host>, name: HostName, u: Uid) {
    name in hosts && Claimant(hosts[name]) == Some(u)
  }

  function Owner(c: Config): Option<Uid> {
    if c.Configured? then c.owner else None
  }

  predicate ConfigOk(h: Host) {
    Owner(h.config).Some? ==> Claimant(h) == Owner(h.config)
  }

  /** The hosts a machine is acting on or believes in. */
  predicate Engages(stored: MachineRec, a: Actor, name: HostName) {
    || stored.resolvedHost == Some(name)
    || (!a.pc.Idle? && a.local.resolvedHost == Some(name))
    || (a.pc.Record? && a.pc.host == name)
  }

  /** The hosts a machine has acted on. */
  predicate Engaged(hist: History, name: HostName) {
    || (hist.attempt.Some? && hist.attempt.value.host == name)
    || hist.adopted == Some(name)
    || hist.evicted == Some(name)
  }

  predicate Holds(m: Machine, name: HostName) {
    Engages(m.stored, m.actor, name) || Engaged(m.hist, name)
  }

  /** Control points at which the in-memory record may name no host. */
  predicate Unsettled(pc: Pc) {
    || pc.Idle? || pc.Select? || pc.CasGet? || pc.CasPut? || pc.CasFinalizer? || pc.Record?
    || pc.ReleaseFinalizer?
  }

  predicate Releases(pc: Pc) {
    pc.ReleaseGet? || pc.ReleaseProbe? || pc.ReleaseReset? || pc.ReleasePut? || pc.ReleaseFinalizer?
  }

  predicate Unconfigured(hosts: map<HostName, Host>, name: HostName) {
    name in hosts ==> Owner(hosts[name].config).None?
  }

  predicate Disowned(hosts: map<HostName, Host>, name: HostName, u: Uid) {
    name in hosts ==> Owner(hosts[name].config) != Some(u)
  }

  ghost predicate OwnershipOk(hosts: map<HostName, Host>, u: Uid, m: Machine) {
    && (Releases(m.actor.pc) ==> m.stored.deleting)
    && (m.hist.released ==> m.stored.deleting && (m.actor.pc.Idle? || Releases(m.actor.pc)))
    && (!m.hist.released ==> forall name :: Holds(m, name) ==> Owns(hosts, name, u))
    && (!Unsettled(m.actor.pc) ==> m.actor.local.resolvedHost.Some?)
    && (m.actor.pc.ReleasePut? || m.actor.pc.FailClear? ==> Disowned(hosts, Target(m.actor), u))
  }

  ghost predicate Owned(w: World) {
    && Recorded(w)
    && (forall name :: name in w.hosts ==> ConfigOk(w.hosts[name]))
    && (forall u :: u in w.machines ==> OwnershipOk(w.hosts, u, w.machines[u]))
  }

  // ---------- Rely and guarantee ----------

  /** Nothing was installed, and a reboot started what was installed before. */
  predicate SameDisk(h: Host, h': Host) {
    && h'.installed == h.installed && h'.image == h.image && h'.installBoot == h.installBoot
    && h.boot <= h'.boot
    && h'.running == (if h'.boot == h.boot then h.running else h.installed)
  }

  /** What the claimant of a host can rely on while it is not acting itself. */
  predicate Undisturbed(h: Host, h': Host) {
    && Claimant(h') == Claimant(h)
    && (Owner(h'.config).Some? ==> h'.config == h.config)
    && SameDisk(h, h')
  }

  /** Nobody else disturbs a host of u or applies a config in u's name. */
  ghost predicate Rely(u: Uid, hosts: map<HostName, Host>, hosts': map<HostName, Host>) {
    && (forall name :: Owns(hosts, name, u) ==> name in hosts' && Undisturbed(hosts[name], hosts'[name]))
    && (forall name :: name in hosts && name in hosts' && Owner(hosts'[name].config) == Some(u) ==>
          Owner(hosts[name].config) == Some(u))
  }

  /** What one act of machine u may do to a host: nothing that disturbs its claimant, or
      something to a host that it owns or is just claiming. */
  predicate MayTouch(h: Host, h': Host, u: Uid, released: bool) {
    Undisturbed(h, h') ||
    (&& (Claimant(h) == Some(u) || (Claimant(h).None? && h'.config == h.config))
     && (Claimant(h') == Some(u) || (released && Claimant(h').None? && Owner(h'.config).None?))
     && (h'.config == h.config || Owner(h'.config).None? || Owner(h'.config) == Some(u)))
  }

  ghost predicate Guarantee(u: Uid, hosts: map<HostName, Host>, hosts': map<HostName, Host>, released: bool) {
    && hosts'.Keys == hosts.Keys
    && (forall name :: name in hosts ==> MayTouch(hosts[name], hosts'[name], u, released))
  }

  lemma PutGuarantee(hosts: map<HostName, Host>, u: Uid, m: Machine, act: Act)
    requires MachineOk(hosts, u, m.stored, m.actor) && OwnershipOk(hosts, u, m)
    requires Move(u, m.spec, m.actor, act).Some? && Possible(hosts, m, act)
    requires act.PutStatus? || act.PutFinalizer?
    requires act.PutStatus? && act.ok ==> FairRelease(u, m.actor)
    requires PutTarget(m.actor).Some? && PutTarget(m.actor).value in hosts ==> ConfigOk(hosts[PutTarget(m.actor).value])
    ensures Guarantee(u, hosts, HostsAfter(hosts, u, m, act), act.PutStatus? && act.ok && m.actor.pc.ReleasePut?)
  {
    var t := PutTarget(m.actor).value;
    if act.ok {
      assert Last(hosts[t].versions) == hosts[t].versions[PutAt(m.actor.pc)];
      assert Last(HostsAfter(hosts, u, m, act)[t].versions) == act.rec;
      assert !m.actor.pc.CasPut? && !m.hist.released ==> Holds(m, t);
    }
  }

  lemma RpcGuarantee(hosts: map<HostName, Host>, u: Uid, m: Machine, act: Act)
    requires OwnershipOk(hosts, u, m)
    requires Move(u, m.spec, m.actor, act).Some? && Possible(hosts, m, act)
    requires !act.PutStatus? && !act.PutFinalizer?
    ensures Guarantee(u, hosts, HostsAfter(hosts, u, m, act), false)
  {
    var hosts' := HostsAfter(hosts, u, m, act);
    if hosts' != hosts {
      var t := Target(m.actor);
      assert act.ApplyConfig? || act.Install? || act.Reboot? || act.Reset?;
      assert m.hist.released ==> act.Reset?;
      assert Holds(m, t);
    }
  }

  lemma ActGuarantee(hosts: map<HostName, Host>, u: Uid, m: Machine, act: Act)
    requires MachineOk(hosts, u, m.stored, m.actor) && OwnershipOk(hosts, u, m)
    requires Move(u, m.spec, m.actor, act).Some? && Possible(hosts, m, act)
    requires act.PutStatus? && act.ok ==> FairRelease(u, m.actor)
    requires forall name :: name in hosts ==> ConfigOk(hosts[name])
    ensures Guarantee(u, hosts, HostsAfter(hosts, u, m, act), act.PutStatus? && act.ok && m.actor.pc.ReleasePut?)
  {
    if act.PutStatus? || act.PutFinalizer? {
      PutGuarantee(hosts, u, m, act);
    } else {
      RpcGuarantee(hosts, u, m, act);
    }
  }

  lemma GuaranteeGivesRely(u: Uid, x: Uid, hosts: map<HostName, Host>, hosts': map<HostName, Host>, released: bool)
    requires Guarantee(u, hosts, hosts', released) && x != u
    ensures Rely(x, hosts, hosts')
  {
  }

  lemma GuaranteeKeepsConfig(u: Uid, hosts: map<HostName, Host>, hosts': map<HostName, Host>, released: bool)
    requires Guarantee(u, hosts, hosts', released)
    requires forall name :: name in hosts ==> ConfigOk(hosts[name])
    ensures forall name :: name in hosts' ==> ConfigOk(hosts'[name])
  {
  }

  lemma HostNextUndisturbed(h: Host, act: HostAct)
    requires HostOk(h) && HostNext(h, act).Some?
    ensures Undisturbed(h, HostNext(h, act).value)
  {
    if act.PatchSelf? {
      assert RecordOk(h.versions[h.actor.at]);
      ReportedKeepsClaim(h.actor.base, h.actor.pc.report, h.threshold);
    } else if act.DropFinalizer? && act.ok {
      assert Last(h.versions) == h.versions[h.actor.at];
    }
  }

  lemma HostEventUndisturbed(h: Host, event: Event)
    requires HostOk(h) && HostEvent(h, event).Some?
    ensures Undisturbed(h, HostEvent(h, event).value)
  {
    assert RecordOk(h.versions[|h.versions| - 1]);
  }

  // ---------- The acting machine ----------

  lemma StableOwnership(hosts: map<HostName, Host>, hosts': map<HostName, Host>, u: Uid, m: Machine, m': Machine)
    requires OwnershipOk(hosts, u, m) && Rely(u, hosts, hosts') && hosts.Keys == hosts'.Keys
    requires m'.actor == m.actor && m'.hist == m.hist && SpecEdit(m.stored, m'.stored)
    ensures OwnershipOk(hosts', u, m')
  {
    forall name | !m.hist.released && Holds(m', name)
      ensures Owns(hosts', name, u)
    {
      assert Holds(m, name);
      assert Owns(hosts, name, u);
    }
    if (m.actor.pc.ReleasePut? || m.actor.pc.FailClear?) && !m.hist.released {
      assert Holds(m, Target(m.actor));
      assert Owns(hosts, Target(m.actor), u);
    }
  }

  lemma IntendedHost(a: Actor)
    requires Intended(a).Some?
    ensures var r := Intended(a).value.resolvedHost;
            r == a.local.resolvedHost || r.None? || (a.pc.Record? && r == Some(a.pc.host))
    ensures a.pc.Record? ==> Intended(a).value.resolvedHost == Some(a.pc.host)
  {
  }

  lemma HistoryHosts(hosts: map<HostName, Host>, m: Machine, act: Act, name: HostName)
    requires m.actor.pc.PreProbe? || m.actor.pc.Adopt? || m.actor.pc.FailClear? ==> m.actor.local.resolvedHost.Some?
    ensures Engaged(HistoryAfter(hosts, m, act), name) ==>
              Engaged(m.hist, name) || (!m.actor.pc.Idle? && m.actor.local.resolvedHost == Some(name))
  {
  }

  lemma HistoryReleased(hosts: map<HostName, Host>, m: Machine, act: Act)
    ensures HistoryAfter(hosts, m, act).released == (m.hist.released || (act.PutStatus? && act.ok && m.actor.pc.ReleasePut?))
  {
  }

  lemma PatchedHost(stored: MachineRec, base: MachineRec, local: MachineRec)
    ensures PatchMachine(stored, base, local).resolvedHost in {stored.resolvedHost, local.resolvedHost}
  {
  }

  /** A machine comes to engage a host only by winning its claim. */
  lemma EngagesOnlyByClaiming(hosts: map<HostName, Host>, u: Uid, m: Machine, act: Act, name: HostName)
    requires Move(u, m.spec, m.actor, act).Some? && Possible(hosts, m, act) && !act.PutFinalizer?
    requires Engages(StoredAfter(m, act), Move(u, m.spec, m.actor, act).value, name)
    ensures Engages(m.stored, m.actor, name) ||
            (act.PutStatus? && act.ok && m.actor.pc.CasPut? && name == m.actor.pc.host)
  {
    if act.Patch? {
      IntendedHost(m.actor);
      PatchedHost(m.stored, PatchBase(m.actor), act.self);
      PlainMove(u, m.spec, m.actor, act);
    } else if !act.Start? && !act.StartDelete? {
      LocalMove(u, m.spec, m.actor, act);
      if !Branches(act) {
        PlainMove(u, m.spec, m.actor, act);
      }
    }
  }

  lemma UnsettledStays(u: Uid, spec: MachineSpec, a: Actor, act: Act)
    requires Move(u, spec, a, act).Some? && Unsettled(a.pc)
    requires !act.Start? && !act.StartDelete? && !act.Patch?
    ensures Unsettled(Move(u, spec, a, act).value.pc)
  {
  }

  lemma SettledPatch(spec: MachineSpec, a: Actor)
    requires Intended(a).Some?
    requires !Unsettled(a.pc) ==> a.local.resolvedHost.Some?
    ensures var self := Intended(a).value;
            !Unsettled(AfterPatch(spec, a.pc, self, a.hash)) ==> self.resolvedHost.Some?
  {
    hide DecidePc, EnsurePc, DispatchPc, MirrorPc;
  }

  lemma SettledMove(hosts: map<HostName, Host>, u: Uid, m: Machine, act: Act)
    requires Move(u, m.spec, m.actor, act).Some? && Possible(hosts, m, act)
    requires !Unsettled(m.actor.pc) ==> m.actor.local.resolvedHost.Some?
    ensures var a' := Move(u, m.spec, m.actor, act).value;
            !Unsettled(a'.pc) ==> a'.local.resolvedHost.Some?
  {
    hide ClaimMove, AdoptMove, UpgradeMove, FinalMove, Intended, AfterPatch, Possible;
    if act.Patch? {
      SettledPatch(m.spec, m.actor);
    } else if !act.Start? && !act.StartDelete? {
      LocalMove(u, m.spec, m.actor, act);
      if Unsettled(m.actor.pc) {
        UnsettledStays(u, m.spec, m.actor, act);
      }
    }
  }

  lemma ReleasePatch(spec: MachineSpec, pc: Pc, m: MachineRec, hash: string)
    ensures !Releases(AfterPatch(spec, pc, m, hash))
  {
  }

  lemma ReleaseRead(u: Uid, spec: MachineSpec, a: Actor, seen: Seen)
    requires AfterRead(u, spec, a, seen).Some? && Releases(AfterRead(u, spec, a, seen).value)
    ensures Releases(a.pc)
  {
  }

  /** A delete reconcile stays one, and only runs on a record marked for deletion. */
  lemma ReleasingMove(hosts: map<HostName, Host>, u: Uid, m: Machine, act: Act)
    requires Move(u, m.spec, m.actor, act).Some? && Possible(hosts, m, act)
    requires Releases(m.actor.pc) ==> m.stored.deleting
    ensures StoredAfter(m, act).deleting == m.stored.deleting
    ensures Releases(Move(u, m.spec, m.actor, act).value.pc) ==> m.stored.deleting
  {
    hide AfterPatch, DecidePc, EnsurePc, LeastCandidate, Intended, AfterRead;
    if act.Patch? {
      ReleasePatch(m.spec, m.actor.pc, act.self, m.actor.hash);
    } else if act.ReadHost? {
      if Releases(AfterRead(u, m.spec, m.actor, act.seen).value) {
        ReleaseRead(u, m.spec, m.actor, act.seen);
      }
    } else if Releases(Move(u, m.spec, m.actor, act).value.pc) {
      assert act.StartDelete? || Releases(m.actor.pc);
    }
  }

  lemma ReleasedMove(hosts: map<HostName, Host>, u: Uid, m: Machine, act: Act)
    requires Move(u, m.spec, m.actor, act).Some? && Possible(hosts, m, act)
    requires m.stored.deleting && (m.actor.pc.Idle? || Releases(m.actor.pc))
    ensures var pc := Move(u, m.spec, m.actor, act).value.pc; pc.Idle? || Releases(pc)
  {
    hide AfterPatch, DecidePc, EnsurePc, ToPut, GatePc, LeastCandidate, AfterBoot, AfterConfig;
  }

  lemma WipedMove(hosts: map<HostName, Host>, u: Uid, m: Machine, act: Act)
    requires OwnershipOk(hosts, u, m)
    requires Move(u, m.spec, m.actor, act).Some? && Possible(hosts, m, act)
    ensures var a' := Move(u, m.spec, m.actor, act).value;
            a'.pc.ReleasePut? || a'.pc.FailClear? ==> Disowned(HostsAfter(hosts, u, m, act), Target(a'), u)
  {
    var a' := Move(u, m.spec, m.actor, act).value;
    if a'.pc.ReleasePut? || a'.pc.FailClear? {
      WipingAct(u, m.spec, m.actor, act);
      WipedNow(hosts, u, m, act);
    }
  }

  lemma WipedNow(hosts: map<HostName, Host>, u: Uid, m: Machine, act: Act)
    requires !Unsettled(m.actor.pc) ==> m.actor.local.resolvedHost.Some?
    requires Move(u, m.spec, m.actor, act).Some? && Possible(hosts, m, act)
    requires act == ProbeMaintenance(true) || act == Reset(true)
    ensures Unconfigured(HostsAfter(hosts, u, m, act), Target(Move(u, m.spec, m.actor, act).value))
  {
  }

  /** Only a maintenance answer or a reset leads to the write that gives a host back or
      clears an evicted machine. */
  lemma WipingAct(u: Uid, spec: MachineSpec, a: Actor, act: Act)
    requires Move(u, spec, a, act).Some?
    requires var pc' := Move(u, spec, a, act).value.pc; pc'.ReleasePut? || pc'.FailClear?
    ensures act == ProbeMaintenance(true) || act == Reset(true)
  {
    if act.Patch? {
      WipingPatch(spec, a.pc, act.self, a.hash);
    }
  }

  lemma WipingPatch(spec: MachineSpec, pc: Pc, m: MachineRec, hash: string)
    ensures var pc' := AfterPatch(spec, pc, m, hash); !pc'.ReleasePut? && !pc'.FailClear?
  {
  }

  lemma ClaimGivesOwnership(hosts: map<HostName, Host>, u: Uid, m: Machine, act: Act)
    requires Move(u, m.spec, m.actor, act).Some? && Possible(hosts, m, act)
    requires act.PutStatus? && act.ok && m.actor.pc.CasPut?
    ensures Owns(HostsAfter(hosts, u, m, act), m.actor.pc.host, u)
  {
    assert Last(HostsAfter(hosts, u, m, act)[m.actor.pc.host].versions) == act.rec;
  }

  lemma KeptIsOwned(hosts: map<HostName, Host>, hosts': map<HostName, Host>, u: Uid, name: HostName)
    requires Owns(hosts, name, u) && Guarantee(u, hosts, hosts', false)
    ensures Owns(hosts', name, u)
  {
    assert MayTouch(hosts[name], hosts'[name], u, false);
  }

  lemma OwnHolds(hosts: map<HostName, Host>, u: Uid, m: Machine, m': Machine, act: Act, name: HostName)
    requires MachineOk(hosts, u, m.stored, m.actor) && OwnershipOk(hosts, u, m)
    requires Move(u, m.spec, m.actor, act).Some? && Possible(hosts, m, act)
    requires act.PutStatus? && act.ok ==> FairRelease(u, m.actor)
    requires forall name :: name in hosts ==> ConfigOk(hosts[name])
    requires m'.actor == Move(u, m.spec, m.actor, act).value
    requires m'.stored == StoredAfter(m, act) && m'.hist == HistoryAfter(hosts, m, act)
    requires Holds(m', name) && !m'.hist.released
    ensures Owns(HostsAfter(hosts, u, m, act), name, u)
  {
    hide MachineOk, Move, Possible, HostsAfter, StoredAfter, HistoryAfter, Owns, Engaged, Guarantee;
    HistoryReleased(hosts, m, act);
    HistoryHosts(hosts, m, act, name);
    NoFinalizerPut(hosts, u, m.spec, m.stored, m.actor, act);
    if Engages(m'.stored, m'.actor, name) {
      EngagesOnlyByClaiming(hosts, u, m, act, name);
    }
    if Holds(m, name) {
      ActGuarantee(hosts, u, m, act);
      KeptIsOwned(hosts, HostsAfter(hosts, u, m, act), u, name);
    } else {
      ClaimGivesOwnership(hosts, u, m, act);
    }
  }

  lemma OwnOwnership(hosts: map<HostName, Host>, u: Uid, m: Machine, m': Machine, act: Act)
    requires MachineOk(hosts, u, m.stored, m.actor) && OwnershipOk(hosts, u, m)
    requires Move(u, m.spec, m.actor, act).Some? && Possible(hosts, m, act)
    requires m'.actor == Move(u, m.spec, m.actor, act).value
    requires m'.stored == StoredAfter(m, act) && m'.hist == HistoryAfter(hosts, m, act)
    requires act.PutStatus? && act.ok ==> FairRelease(u, m.actor)
    requires forall name :: name in hosts ==> ConfigOk(hosts[name])
    ensures OwnershipOk(HostsAfter(hosts, u, m, act), u, m')
  {
    SettledMove(hosts, u, m, act);
    ReleasingMove(hosts, u, m, act);
    WipedMove(hosts, u, m, act);
    HistoryReleased(hosts, m, act);
    if m.hist.released {
      ReleasedMove(hosts, u, m, act);
    } else if m'.hist.released {
      assert m'.actor.pc.ReleaseFinalizer?;
    } else {
      forall name | Holds(m', name)
        ensures Owns(HostsAfter(hosts, u, m, act), name, u)
      {
        OwnHolds(hosts, u, m, m', act, name);
      }
    }
  }

  // ---------- Every run in which nothing is stolen ----------

  lemma RelyStep(w: World, step: Step, x: Uid)
    requires Owned(w) && Next(w, step).Some? && !(step.MachineStep? && step.u == x) && !Steals(w, step)
    ensures Rely(x, w.hosts, Next(w, step).value.hosts)
  {
    hide Next, HostsAfter, Possible, Move, HostNext, HostEvent, MachineOk, HostOk, OwnershipOk, Guarantee, ConfigOk, Rely,
      Undisturbed, FairRelease;
    match step
    case MachineStep(u, act) =>
      OwnStep(w, u, act);
      var m := w.machines[u];
      ActGuarantee(w.hosts, u, m, act);
      GuaranteeGivesRely(u, x, w.hosts, HostsAfter(w.hosts, u, m, act), act.PutStatus? && act.ok && m.actor.pc.ReleasePut?);
    case HostStep(name, act) =>
      UnclaimedStep(w, step);
      HostNextUndisturbed(w.hosts[name], act);
      UndisturbedRely(x, w.hosts, name, HostNext(w.hosts[name], act).value);
    case Outside(event) =>
      UnclaimedStep(w, step);
      if Next(w, step).value.hosts != w.hosts {
        HostEventUndisturbed(w.hosts[event.host], event);
        UndisturbedRely(x, w.hosts, event.host, HostEvent(w.hosts[event.host], event).value);
      } else {
        NothingRely(x, w.hosts);
      }
  }

  lemma UndisturbedRely(u: Uid, hosts: map<HostName, Host>, name: HostName, h': Host)
    requires name in hosts && Undisturbed(hosts[name], h')
    ensures Rely(u, hosts, hosts[name := h'])
  {
  }

  lemma NothingRely(u: Uid, hosts: map<HostName, Host>)
    ensures Rely(u, hosts, hosts)
  {
  }

  /** An evicted machine's host carries nobody's config. */
  lemma WipedOut(hosts: map<HostName, Host>, u: Uid, m: Machine)
    requires OwnershipOk(hosts, u, m) && forall name :: name in hosts ==> ConfigOk(hosts[name])
    requires m.actor.pc.FailClear? && !m.hist.released
    ensures Unconfigured(hosts, Target(m.actor))
  {
    assert Holds(m, Target(m.actor));
  }

  lemma ConfigStep(w: World, step: Step)
    requires Owned(w) && Next(w, step).Some? && !Steals(w, step)
    ensures forall name :: name in Next(w, step).value.hosts ==> ConfigOk(Next(w, step).value.hosts[name])
  {
    hide Next, HostsAfter, Possible, Move, HostNext, HostEvent, MachineOk, HostOk, OwnershipOk, Guarantee;
    match step
    case MachineStep(u, act) =>
      OwnStep(w, u, act);
      var m := w.machines[u];
      ActGuarantee(w.hosts, u, m, act);
      GuaranteeKeepsConfig(u, w.hosts, HostsAfter(w.hosts, u, m, act), act.PutStatus? && act.ok && m.actor.pc.ReleasePut?);
    case HostStep(name, act) =>
      UnclaimedStep(w, step);
      HostNextUndisturbed(w.hosts[name], act);
    case Outside(event) =>
      UnclaimedStep(w, step);
      if Next(w, step).value.hosts != w.hosts {
        HostEventUndisturbed(w.hosts[event.host], event);
      }
  }

  lemma KeptKeys(hosts: map<HostName, Host>, hosts': map<HostName, Host>)
    requires HostsGrow(hosts, hosts')
    ensures hosts'.Keys == hosts.Keys
  {
  }

  lemma OwnershipStep(w: World, step: Step, u: Uid)
    requires Owned(w) && Next(w, step).Some? && !Steals(w, step) && u in w.machines
    ensures var w' := Next(w, step).value; u in w'.machines && OwnershipOk(w'.hosts, u, w'.machines[u])
  {
    hide Next, HostsAfter, Possible, Move, MachineOk, HostOk, OwnershipOk, Guarantee, HostsGrow, SpecEdit;
    var w' := Next(w, step).value;
    if step.MachineStep? && step.u == u {
      OwnStep(w, u, step.act);
      OwnOwnership(w.hosts, u, w.machines[u], w'.machines[u], step.act);
    } else {
      OthersStep(w, step, u);
      RelyStep(w, step, u);
      StepGrowsHosts(w, step);
      KeptKeys(w.hosts, w'.hosts);
      StableOwnership(w.hosts, w'.hosts, u, w.machines[u], w'.machines[u]);
    }
  }

  lemma OwnedStep(w: World, step: Step)
    requires Owned(w) && Next(w, step).Some? && !Steals(w, step)
    ensures Owned(Next(w, step).value)
  {
    hide Next, Recorded, ConfigOk, OwnershipOk, Steals;
    var w' := Next(w, step).value;
    RecordedStep(w, step);
    ConfigStep(w, step);
    StepKeepsMachines(w, step);
    forall u | u in w'.machines
      ensures OwnershipOk(w'.hosts, u, w'.machines[u])
    {
      OwnershipStep(w, step, u);
    }
  }

  lemma InitOwned(w: World)
    requires Init(w)
    ensures Owned(w)
  {
  }

  lemma {:induction false} OwnedAlways(w: World, log: seq<Step>)
    requires Init(w) && Play(w, log).Some? && NothingStolen(w, log)
    ensures Owned(Play(w, log).value)
  {
    hide Init, Owned, Next, Steals;
    if log == [] {
      InitOwned(w);
    } else {
      OwnedAlways(w, log[..|log| - 1]);
      OwnedStep(Play(w, log[..|log| - 1]).value, Last(log));
    }
  }
}
