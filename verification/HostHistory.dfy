/** What every version of every host record satisfies, in every run whatsoever: any
    number of machines, stale reads, unversioned patches, crashes, and releases that
    are executed again. */
module HostHistory {
  import opened Common
  import opened Records
  import opened HostProtocol
  import opened MachineProtocol
  import opened World

  /** A claim is taken only when free and given up only to nobody. */
  predicate ClaimChange(before: Option<Uid>, after: Option<Uid>) {
    before == after || before.None? || after.None?
  }

  predicate RecordOk(r: HostRec) {
    && (r.phase == Releasing ==> r.claimRef.None?)
    && (r.phase == Claimed ==> r.claimRef.Some?)
    && (r.claimRef.Some? || r.phase == Available ==> r.finalizer)
  }

  ghost predicate VersionsOk(v: seq<HostRec>) {
    && v != []
    && (forall i :: 0 <= i < |v| ==> RecordOk(v[i]) && v[i].publicIP == v[0].publicIP)
    && (forall i :: 0 <= i < |v| && v[i].finalizer ==> Last(v).finalizer)
    && (forall i :: 0 < i < |v| ==> ClaimChange(v[i - 1].claimRef, v[i].claimRef))
  }

  ghost predicate HostActorOk(h: Host) {
    var a := h.actor;
    !a.pc.HostIdle? ==>
      && a.at < |h.versions|
      && a.base == h.versions[a.at].(finalizer := a.base.finalizer)
      && (a.pc.Probe? || a.pc.Discover? || a.pc.Report? ==>
            a.base.finalizer && Last(h.versions).finalizer && a.base.phase != Claimed)
      && (a.pc.Report? ==> (a.pc.report.Found? || a.pc.report.Alive? ==> a.answered))
      && (a.pc.Removing? ==> a.base == h.versions[a.at] && a.base.claimRef.None?)
  }

  ghost predicate HostOk(h: Host) {
    VersionsOk(h.versions) && HostActorOk(h) && (h.gone ==> Last(h.versions).claimRef.None?)
  }

  predicate Grows(h: Host, h': Host) {
    h.versions <= h'.versions && (h.gone ==> h'.gone)
  }

  ghost predicate Holding(hosts: map<HostName, Host>, name: HostName, ip: string) {
    && name in hosts && hosts[name].versions != []
    && Last(hosts[name].versions).finalizer && hosts[name].versions[0].publicIP == ip
  }

  /** The host facts a machine's control point remembers. */
  ghost predicate PcOk(hosts: map<HostName, Host>, u: Uid, a: Actor) {
    var t := Target(a);
    match a.pc
    case CasGet(host, ip) => Holding(hosts, host, ip)
    case CasPut(host, ip, at, seen) =>
      && Holding(hosts, host, ip) && SeenIn(hosts, host, Version(at, seen))
      && (seen.claimRef.None? || seen.claimRef == Some(u))
    case CasFinalizer(_, _, _, _) => false  // a claimed host always has the finalizer already
    case Record(host, ip) => Holding(hosts, host, ip)
    case HealIP(_) => false  // addresses never go stale
    case MirrorPut(at, seen) => a.local.resolvedHost.Some? && SeenIn(hosts, t, Version(at, seen))
    case ReleaseProbe(at, seen) => a.local.resolvedHost.Some? && SeenIn(hosts, t, Version(at, seen))
    case ReleaseReset(at, seen) => a.local.resolvedHost.Some? && SeenIn(hosts, t, Version(at, seen))
    case ReleasePut(at, seen, phase) =>
      && a.local.resolvedHost.Some? && SeenIn(hosts, t, Version(at, seen))
      && (phase == Available || phase == Releasing) && (phase == Available ==> a.answered)
    case _ => true
  }

  /** The resolved address is the resolved host's. */
  ghost predicate Resolved(hosts: map<HostName, Host>, m: MachineRec) {
    match m.resolvedHost
    case None => m.resolvedIP == ""
    case Some(name) => Holding(hosts, name, m.resolvedIP)
  }

  ghost predicate MachineOk(hosts: map<HostName, Host>, u: Uid, stored: MachineRec, a: Actor) {
    && Resolved(hosts, stored)
    && (!a.pc.Idle? ==> Resolved(hosts, a.base) && Resolved(hosts, a.local) && PcOk(hosts, u, a))
  }

  ghost predicate HostsOk(hosts: map<HostName, Host>) {
    && (forall name :: name in hosts ==> HostOk(hosts[name]) && hosts[name].versions[0].publicIP != "")
    && (forall a, b :: a in hosts && b in hosts && a != b ==>
          hosts[a].versions[0].publicIP != hosts[b].versions[0].publicIP)
  }

  ghost predicate Recorded(w: World) {
    HostsOk(w.hosts) && forall u :: u in w.machines ==> MachineOk(w.hosts, u, w.machines[u].stored, w.machines[u].actor)
  }

  ghost predicate HostsGrow(hosts: map<HostName, Host>, hosts': map<HostName, Host>) {
    && hosts.Keys == hosts'.Keys
    && (forall name :: name in hosts ==> HostOk(hosts'[name]) && Grows(hosts[name], hosts'[name]))
  }

  // ---------- One host ----------

  lemma StoreKeeps(h: Host, r: HostRec)
    requires HostOk(h) && !h.gone && RecordOk(r)
    requires r.publicIP == h.versions[0].publicIP
    requires Last(h.versions).finalizer ==> r.finalizer
    requires ClaimChange(Last(h.versions).claimRef, r.claimRef)
    ensures HostOk(Store(h, r)) && Grows(h, Store(h, r))
  {
    var v := h.versions + [r];
    assert Last(v) == r;
    forall i | 0 <= i < |v| ensures RecordOk(v[i]) && v[i].publicIP == v[0].publicIP && (v[i].finalizer ==> r.finalizer) {
      assert i < |h.versions| ==> v[i] == h.versions[i];
    }
    forall i | 0 < i < |v| ensures ClaimChange(v[i - 1].claimRef, v[i].claimRef) {
      assert v[i - 1] == h.versions[i - 1];
    }
  }

  /** The host patch never writes claimRef: the only report that clears it starts from
      phase Releasing, whose versions carry none. */
  lemma {:induction false} ReportedKeepsClaim(base: HostRec, report: Report, threshold: nat)
    requires RecordOk(base) && base.phase != Claimed
    ensures Reported(base, report, threshold).claimRef == base.claimRef
    ensures Reported(base, report, threshold).phase in {base.phase, Available, Probing, Unavailable}
  {
  }

  lemma HostNextKeeps(h: Host, act: HostAct)
    requires HostOk(h) && HostNext(h, act).Some?
    ensures HostOk(HostNext(h, act).value) && Grows(h, HostNext(h, act).value)
  {
    var moved := HostMove(h.actor, h.threshold, act).value;
    var h1 := h.(actor := moved);
    match act
    case EnsureFinalizer =>
      assert h.versions[h.actor.at] in h.versions;
      StoreKeeps(h.(actor := HostActor(HostIdle, 0, h.actor.base, false)), Last(h.versions).(finalizer := true));
    case PatchSelf(rec) =>
      ReportedKeepsClaim(h.actor.base, h.actor.pc.report, h.threshold);
      StoreKeeps(h1, PatchHost(Last(h.versions), h.actor.base, rec));
    case _ =>
  }

  lemma HostEventKeeps(h: Host, event: Event)
    requires HostOk(h) && HostEvent(h, event).Some?
    ensures HostOk(HostEvent(h, event).value) && Grows(h, HostEvent(h, event).value)
  {
    var last := Last(h.versions);
    match event
    case EditHost(_, labels, failureDomain) =>
      StoreKeeps(h, last.(labels := labels, failureDomain := failureDomain));
    case DeleteHost(_) =>
      if last.finalizer {
        StoreKeeps(h, last.(deleting := true));
      }
    case _ =>
  }

  // ---------- One machine step ----------

  lemma PhysicalKeeps(h: Host, h': Host)
    requires HostOk(h)
    requires h'.versions == h.versions && h'.actor == h.actor && h'.gone == h.gone
    ensures HostOk(h') && Grows(h, h')
  {
  }

  lemma PutIsSound(hosts: map<HostName, Host>, u: Uid, stored: MachineRec, a: Actor, rec: HostRec)
    requires HostsOk(hosts) && MachineOk(hosts, u, stored, a)
    requires ToPut(u, a) == Some(rec) && Written(hosts, a, true)
    ensures var v := hosts[PutTarget(a).value].versions;
            && RecordOk(rec) && rec.publicIP == v[0].publicIP
            && (Last(v).finalizer ==> rec.finalizer)
            && ClaimChange(Last(v).claimRef, rec.claimRef)
            && (a.pc.CasPut? ==> rec.finalizer)
  {
    var v := hosts[PutTarget(a).value].versions;
    assert Last(v) == v[PutAt(a.pc)] && RecordOk(v[PutAt(a.pc)]);
  }

  lemma UpdateGrows(hosts: map<HostName, Host>, name: HostName, h: Host)
    requires HostsOk(hosts) && name in hosts && HostOk(h) && Grows(hosts[name], h)
    ensures HostsGrow(hosts, hosts[name := h])
  {
  }

  /** claimCAS never needs to add the finalizer. */
  lemma {:induction false} NoFinalizerPut(hosts: map<HostName, Host>, u: Uid, spec: MachineSpec, stored: MachineRec, a: Actor, act: Act)
    requires MachineOk(hosts, u, stored, a) && Move(u, spec, a, act).Some?
    ensures !act.PutFinalizer?
  {
  }

  lemma PutKeeps(hosts: map<HostName, Host>, u: Uid, m: Machine, act: Act)
    requires HostsOk(hosts) && MachineOk(hosts, u, m.stored, m.actor)
    requires act.PutStatus? && ToPut(u, m.actor) == Some(act.rec) && Possible(hosts, m, act)
    ensures HostsGrow(hosts, HostsAfter(hosts, u, m, act))
    ensures !AfterPut(m.actor.pc, act.rec, act.ok).CasFinalizer?
  {
    if act.ok {
      var t := PutTarget(m.actor).value;
      PutIsSound(hosts, u, m.stored, m.actor, act.rec);
      StoreKeeps(hosts[t], act.rec);
      UpdateGrows(hosts, t, Store(hosts[t], act.rec));
    }
  }

  lemma ActKeepsHosts(hosts: map<HostName, Host>, u: Uid, m: Machine, act: Act)
    requires HostsOk(hosts) && MachineOk(hosts, u, m.stored, m.actor)
    requires Move(u, m.spec, m.actor, act).Some? && Possible(hosts, m, act)
    ensures HostsGrow(hosts, HostsAfter(hosts, u, m, act))
  {
    NoFinalizerPut(hosts, u, m.spec, m.stored, m.actor, act);
    if act.PutStatus? {
      PutKeeps(hosts, u, m, act);
    } else {
      RpcKeeps(hosts, u, m, act);
    }
  }

  lemma RpcKeeps(hosts: map<HostName, Host>, u: Uid, m: Machine, act: Act)
    requires HostsOk(hosts) && Possible(hosts, m, act)
    requires !act.PutStatus? && !act.PutFinalizer?
    ensures HostsGrow(hosts, HostsAfter(hosts, u, m, act))
  {
    var hosts' := HostsAfter(hosts, u, m, act);
    var t := Target(m.actor);
    if hosts' != hosts {
      PhysicalKeeps(hosts[t], hosts'[t]);
      UpdateGrows(hosts, t, hosts'[t]);
    }
  }

  lemma HostsOkStable(hosts: map<HostName, Host>, hosts': map<HostName, Host>)
    requires HostsOk(hosts) && HostsGrow(hosts, hosts')
    ensures HostsOk(hosts')
  {
    forall name | name in hosts
      ensures hosts'[name].versions[0] == hosts[name].versions[0]
    {
    }
  }

  lemma HoldingStable(hosts: map<HostName, Host>, hosts': map<HostName, Host>, name: HostName, ip: string)
    requires Holding(hosts, name, ip) && HostsGrow(hosts, hosts')
    ensures Holding(hosts', name, ip)
  {
    var v, v' := hosts[name].versions, hosts'[name].versions;
    assert v'[|v| - 1] == v[|v| - 1] && v'[0] == v[0];
  }

  lemma ResolvedStable(hosts: map<HostName, Host>, hosts': map<HostName, Host>, m: MachineRec)
    requires Resolved(hosts, m) && HostsGrow(hosts, hosts')
    ensures Resolved(hosts', m)
  {
    if m.resolvedHost.Some? {
      HoldingStable(hosts, hosts', m.resolvedHost.value, m.resolvedIP);
    }
  }

  lemma PcOkStable(hosts: map<HostName, Host>, hosts': map<HostName, Host>, u: Uid, a: Actor)
    requires PcOk(hosts, u, a) && HostsGrow(hosts, hosts')
    ensures PcOk(hosts', u, a)
  {
    if a.pc.CasGet? || a.pc.CasPut? || a.pc.Record? {
      HoldingStable(hosts, hosts', a.pc.host, a.pc.ip);
    }
  }

  lemma MachineOkStable(hosts: map<HostName, Host>, hosts': map<HostName, Host>, u: Uid, stored: MachineRec, a: Actor)
    requires MachineOk(hosts, u, stored, a) && HostsGrow(hosts, hosts')
    ensures MachineOk(hosts', u, stored, a)
  {
    ResolvedStable(hosts, hosts', stored);
    if !a.pc.Idle? {
      ResolvedStable(hosts, hosts', a.base);
      ResolvedStable(hosts, hosts', a.local);
      PcOkStable(hosts, hosts', u, a);
    }
  }

  /** Host and address are patched together or not at all, since distinct hosts have
      distinct addresses. */
  lemma PatchResolved(hosts: map<HostName, Host>, stored: MachineRec, base: MachineRec, local: MachineRec)
    requires HostsOk(hosts)
    requires Resolved(hosts, stored) && Resolved(hosts, base) && Resolved(hosts, local)
    ensures Resolved(hosts, PatchMachine(stored, base, local))
  {
  }

  lemma IntendedResolved(hosts: map<HostName, Host>, u: Uid, a: Actor)
    requires Resolved(hosts, a.local) && PcOk(hosts, u, a) && Intended(a).Some?
    ensures Resolved(hosts, Intended(a).value)
  {
    if a.pc.ClearClaim? {
    } else if a.pc.Record? {
    } else {
      assert Intended(a).value.resolvedHost == a.local.resolvedHost;
    }
  }

  /** Control points that remember nothing about a host. */
  predicate Plain(pc: Pc) {
    && !pc.CasGet? && !pc.CasPut? && !pc.CasFinalizer? && !pc.Record? && !pc.HealIP? && !pc.MirrorPut?
    && !pc.ReleaseProbe? && !pc.ReleaseReset? && !pc.ReleasePut?
  }

  predicate Branches(act: Act) {
    act.ListHosts? || act.ReadHost? || act.PutStatus? || act.PutFinalizer? || act.ProbeMaintenance? || act.Reset?
  }

  lemma PlainPatch(spec: MachineSpec, pc: Pc, m: MachineRec, hash: string)
    ensures Plain(AfterPatch(spec, pc, m, hash))
  {
  }

  lemma PlainMove(u: Uid, spec: MachineSpec, a: Actor, act: Act)
    requires Move(u, spec, a, act).Some? && !Branches(act)
    ensures Plain(Move(u, spec, a, act).value.pc)
  {
    if act.Patch? {
      PlainPatch(spec, a.pc, act.self, a.hash);
    }
  }

  lemma LocalMove(u: Uid, spec: MachineSpec, a: Actor, act: Act)
    requires Move(u, spec, a, act).Some?
    requires !act.Start? && !act.StartDelete? && !act.Patch?
    ensures var a' := Move(u, spec, a, act).value;
            a'.base == a.base && a'.local == a.local && a'.hash == a.hash && !a.pc.Idle?
  {
  }

  lemma PatchIntended(u: Uid, spec: MachineSpec, a: Actor, act: Act)
    requires act.Patch? && Move(u, spec, a, act).Some?
    ensures Intended(a) == Some(act.self) && !a.pc.Idle?
  {
    hide AfterPatch;
  }

  lemma PlainOk(hosts: map<HostName, Host>, u: Uid, stored: MachineRec, a: Actor)
    requires Plain(a.pc)
    requires Resolved(hosts, stored) && Resolved(hosts, a.base) && Resolved(hosts, a.local)
    ensures MachineOk(hosts, u, stored, a)
  {
  }

  lemma PatchKeeps(hosts: map<HostName, Host>, u: Uid, m: Machine, act: Act)
    requires HostsOk(hosts) && MachineOk(hosts, u, m.stored, m.actor)
    requires act.Patch? && Intended(m.actor) == Some(act.self)
    ensures Resolved(hosts, StoredAfter(m, act)) && Resolved(hosts, act.self)
  {
    IntendedResolved(hosts, u, m.actor);
    PatchResolved(hosts, m.stored, PatchBase(m.actor), act.self);
  }

  lemma ListKeeps(hosts: map<HostName, Host>, u: Uid, m: Machine, act: Act)
    requires HostsOk(hosts) && Possible(hosts, m, act) && act.ListHosts?
    requires Move(u, m.spec, m.actor, act).Some?
    ensures PcOk(hosts, u, Move(u, m.spec, m.actor, act).value)
  {
    var best := LeastCandidate(act.items, u, m.spec.failureDomain);
    if best.Some? {
      var c := best.value;
      assert SeenIn(hosts, c.name, Version(c.at, c.rec));
      assert RecordOk(hosts[c.name].versions[c.at]);
    }
  }

  lemma ReadKeeps(hosts: map<HostName, Host>, u: Uid, spec: MachineSpec, a: Actor, seen: Seen)
    requires HostsOk(hosts) && Resolved(hosts, a.local) && PcOk(hosts, u, a)
    requires ReadTarget(spec, a).Some? && SeenIn(hosts, ReadTarget(spec, a).value, seen)
    requires AfterRead(u, spec, a, seen).Some?
    ensures PcOk(hosts, u, a.(pc := AfterRead(u, spec, a, seen).value))
  {
    if seen.Version? {
      var name := ReadTarget(spec, a).value;
      assert RecordOk(hosts[name].versions[seen.at]);
      ReadKeepsVersion(hosts, u, spec, a, seen, name);
    }
  }

  lemma ReadKeepsVersion(hosts: map<HostName, Host>, u: Uid, spec: MachineSpec, a: Actor, seen: Seen, name: HostName)
    requires Resolved(hosts, a.local) && PcOk(hosts, u, a)
    requires ReadTarget(spec, a) == Some(name) && SeenIn(hosts, name, seen) && seen.Version?
    requires HostOk(hosts[name])
    requires AfterRead(u, spec, a, seen).Some?
    ensures PcOk(hosts, u, a.(pc := AfterRead(u, spec, a, seen).value))
  {
    var pc' := AfterRead(u, spec, a, seen).value;
    var v := hosts[name].versions;
    assert seen.rec == v[seen.at] && RecordOk(v[seen.at]);
    if a.pc.Verify? {
      assert Plain(pc');
    } else if a.pc.Select? && !pc'.Idle? {
      assert Holding(hosts, name, seen.rec.publicIP);
    }
  }

  lemma BranchKeeps(hosts: map<HostName, Host>, u: Uid, m: Machine, act: Act)
    requires MachineOk(hosts, u, m.stored, m.actor)
    requires Move(u, m.spec, m.actor, act).Some? && (act.ProbeMaintenance? || act.Reset?)
    ensures PcOk(hosts, u, Move(u, m.spec, m.actor, act).value)
  {
  }

  /** The acting machine's own facts, before the hosts change. */
  lemma MachineOkNow(hosts: map<HostName, Host>, u: Uid, m: Machine, act: Act)
    requires HostsOk(hosts) && MachineOk(hosts, u, m.stored, m.actor)
    requires Move(u, m.spec, m.actor, act).Some? && Possible(hosts, m, act)
    requires !act.PutStatus? && !act.PutFinalizer?
    ensures MachineOk(hosts, u, StoredAfter(m, act), Move(u, m.spec, m.actor, act).value)
  {
    var a' := Move(u, m.spec, m.actor, act).value;
    if !Branches(act) {
      PlainMove(u, m.spec, m.actor, act);
      if act.Patch? {
        PatchKeeps(hosts, u, m, act);
      } else if !act.Start? && !act.StartDelete? {
        LocalMove(u, m.spec, m.actor, act);
      }
      PlainOk(hosts, u, StoredAfter(m, act), a');
    } else {
      LocalMove(u, m.spec, m.actor, act);
      if act.ListHosts? {
        ListKeeps(hosts, u, m, act);
      } else if act.ReadHost? {
        ReadKeeps(hosts, u, m.spec, m.actor, act.seen);
      } else {
        BranchKeeps(hosts, u, m, act);
      }
    }
  }

  lemma PutKeepsMachine(hosts: map<HostName, Host>, u: Uid, m: Machine, act: Act)
    requires HostsOk(hosts) && MachineOk(hosts, u, m.stored, m.actor)
    requires Move(u, m.spec, m.actor, act).Some? && Possible(hosts, m, act) && act.PutStatus?
    requires !AfterPut(m.actor.pc, act.rec, act.ok).CasFinalizer?
    ensures MachineOk(hosts, u, m.stored, Move(u, m.spec, m.actor, act).value)
  {
    hide HostsOk, AdoptMove, UpgradeMove, FinalMove, Intended, AfterPatch;
  }

  lemma ActKeepsMachine(hosts: map<HostName, Host>, u: Uid, m: Machine, act: Act)
    requires HostsOk(hosts) && MachineOk(hosts, u, m.stored, m.actor)
    requires Move(u, m.spec, m.actor, act).Some? && Possible(hosts, m, act)
    ensures MachineOk(HostsAfter(hosts, u, m, act), u, StoredAfter(m, act), Move(u, m.spec, m.actor, act).value)
  {
    ActKeepsHosts(hosts, u, m, act);
    NoFinalizerPut(hosts, u, m.spec, m.stored, m.actor, act);
    if act.PutStatus? {
      PutKeeps(hosts, u, m, act);
      PutKeepsMachine(hosts, u, m, act);
    } else {
      MachineOkNow(hosts, u, m, act);
    }
    MachineOkStable(hosts, HostsAfter(hosts, u, m, act), u, StoredAfter(m, act), Move(u, m.spec, m.actor, act).value);
  }

  // ---------- Every run ----------

  lemma StepGrowsHosts(w: World, step: Step)
    requires Recorded(w) && Next(w, step).Some?
    ensures HostsGrow(w.hosts, Next(w, step).value.hosts)
  {
    hide Next, HostsAfter, Possible, Move, HostNext, HostEvent, MachineOk, HostOk, Grows;
    match step
    case MachineStep(u, act) =>
      OwnStep(w, u, act);
      ActKeepsHosts(w.hosts, u, w.machines[u], act);
    case HostStep(name, act) =>
      UnclaimedStep(w, step);
      HostNextKeeps(w.hosts[name], act);
      NowGrown(w.hosts);
    case Outside(event) =>
      UnclaimedStep(w, step);
      NowGrown(w.hosts);
      if Next(w, step).value.hosts != w.hosts {
        HostEventKeeps(w.hosts[event.host], event);
      }
  }

  lemma NowGrown(hosts: map<HostName, Host>)
    requires HostsOk(hosts)
    ensures HostsGrow(hosts, hosts)
  {
  }

  /** What anybody but its own reconciler may do to a machine's record. */
  predicate SpecEdit(s: MachineRec, s': MachineRec) {
    && s' == s.(generation := s'.generation, desired := s'.desired, deleting := s'.deleting)
    && s.generation <= s'.generation
    && (s.desired != s'.desired ==> s.generation < s'.generation)
    && (s.deleting ==> s'.deleting)
  }

  lemma OwnStep(w: World, u: Uid, act: Act)
    requires Next(w, MachineStep(u, act)).Some?
    ensures u in w.machines && Move(u, w.machines[u].spec, w.machines[u].actor, act).Some?
    ensures Possible(w.hosts, w.machines[u], act)
    ensures var w' := Next(w, MachineStep(u, act)).value;
            var m, m' := w.machines[u], w'.machines[u];
            && w'.machines.Keys == w.machines.Keys
            && w'.hosts == HostsAfter(w.hosts, u, m, act)
            && m'.spec == m.spec && m'.stored == StoredAfter(m, act)
            && m'.actor == Move(u, m.spec, m.actor, act).value
            && m'.hist == HistoryAfter(w.hosts, m, act)
            && (forall x :: x in w.machines && x != u ==> w'.machines[x] == w.machines[x])
  {
    hide Move, Possible, HostsAfter, StoredAfter, HistoryAfter;
  }

  /** A step of a host reconciler or from outside changes one host at most. */
  lemma UnclaimedStep(w: World, step: Step)
    requires Next(w, step).Some? && !step.MachineStep?
    ensures var hosts, hosts' := w.hosts, Next(w, step).value.hosts;
            && (step.HostStep? ==>
                  && step.host in hosts && HostNext(hosts[step.host], step.hostAct).Some?
                  && hosts' == hosts[step.host := HostNext(hosts[step.host], step.hostAct).value])
            && (step.Outside? ==>
                  || hosts' == hosts
                  || (&& !step.event.EditDesired? && !step.event.EditSpec? && !step.event.DeleteMachine?
                      && step.event.host in hosts && HostEvent(hosts[step.event.host], step.event).Some?
                      && hosts' == hosts[step.event.host := HostEvent(hosts[step.event.host], step.event).value]))
  {
    hide HostNext, HostEvent, MachineEvent;
  }

  lemma EventEdits(m: Machine, event: Event)
    requires MachineEvent(m, event).Some?
    ensures var m' := MachineEvent(m, event).value;
            m'.spec == m.spec && m'.actor == m.actor && m'.hist == m.hist && SpecEdit(m.stored, m'.stored)
  {
  }

  lemma OthersStep(w: World, step: Step, u: Uid)
    requires Next(w, step).Some? && u in w.machines && !(step.MachineStep? && step.u == u)
    ensures var w' := Next(w, step).value;
            && w'.machines.Keys == w.machines.Keys
            && var m, m' := w.machines[u], w'.machines[u];
            && m'.spec == m.spec && m'.actor == m.actor && m'.hist == m.hist && SpecEdit(m.stored, m'.stored)
  {
    if step.Outside? && (step.event.EditDesired? || step.event.EditSpec? || step.event.DeleteMachine?) && step.event.u == u {
      EventEdits(w.machines[u], step.event);
    }
    hide HostNext, HostEvent, MachineEvent, Move, Possible, HostsAfter, StoredAfter, HistoryAfter;
  }

  lemma EditKeepsMachine(hosts: map<HostName, Host>, u: Uid, m: Machine, m': Machine)
    requires MachineOk(hosts, u, m.stored, m.actor) && m'.actor == m.actor && SpecEdit(m.stored, m'.stored)
    ensures MachineOk(hosts, u, m'.stored, m'.actor)
  {
  }

  lemma StepKeepsMachine(w: World, step: Step, u: Uid)
    requires Recorded(w) && Next(w, step).Some? && u in w.machines
    ensures var w' := Next(w, step).value;
            u in w'.machines && MachineOk(w'.hosts, u, w'.machines[u].stored, w'.machines[u].actor)
  {
    var w' := Next(w, step).value;
    hide Next, HostsOk, MachineOk, HostsGrow, Move, Possible, HostsAfter, StoredAfter, HistoryAfter, SpecEdit;
    if step.MachineStep? && step.u == u {
      OwnStep(w, u, step.act);
      ActKeepsMachine(w.hosts, u, w.machines[u], step.act);
    } else {
      OthersStep(w, step, u);
      StepGrowsHosts(w, step);
      MachineOkStable(w.hosts, w'.hosts, u, w.machines[u].stored, w.machines[u].actor);
      EditKeepsMachine(w'.hosts, u, w.machines[u], w'.machines[u]);
    }
  }

  lemma StepKeepsMachines(w: World, step: Step)
    requires Next(w, step).Some?
    ensures Next(w, step).value.machines.Keys == w.machines.Keys
  {
    hide HostNext, HostEvent, MachineEvent, Move, Possible, HostsAfter, StoredAfter, HistoryAfter;
  }

  lemma RecordedStep(w: World, step: Step)
    requires Recorded(w) && Next(w, step).Some?
    ensures Recorded(Next(w, step).value)
  {
    var w' := Next(w, step).value;
    hide Next, HostsOk, MachineOk, HostsGrow;
    StepGrowsHosts(w, step);
    HostsOkStable(w.hosts, w'.hosts);
    StepKeepsMachines(w, step);
    forall u | u in w'.machines
      ensures MachineOk(w'.hosts, u, w'.machines[u].stored, w'.machines[u].actor)
    {
      StepKeepsMachine(w, step, u);
    }
  }

  lemma InitRecorded(w: World)
    requires Init(w)
    ensures Recorded(w)
  {
  }

  lemma {:induction false} RecordedAlways(w: World, log: seq<Step>)
    requires Init(w) && Play(w, log).Some?
    ensures Recorded(Play(w, log).value)
  {
    hide Init, Recorded, Next;
    if log == [] {
      InitRecorded(w);
    } else {
      RecordedAlways(w, log[..|log| - 1]);
      RecordedStep(Play(w, log[..|log| - 1]).value, Last(log));
    }
  }
}
