/** What a run guarantees about claims, releases and applied configs. */
module ClaimProperties {
  import opened Common
  import opened Records
  import opened HostProtocol
  import opened MachineProtocol
  import opened World
  import opened HostHistory
  import opened Ownership
  import opened UpgradeRecord
  import opened Attempts
  import opened Reconciles
  import Lifecycle

  // ---------- In every run ----------

  /** No write ever hands a claim from one machine to another, and the phases that speak
      of a claim agree with it in every version ever stored. */
  lemma {:induction false} ClaimExclusivity(first: World, log: seq<Step>, w: World, name: HostName)
    requires Ran(first, log, w) && name in w.hosts
    ensures var v := w.hosts[name].versions;
            && (forall i :: 0 < i < |v| && v[i - 1].claimRef.Some? && v[i].claimRef.Some? ==>
                  v[i].claimRef == v[i - 1].claimRef)
            && (forall i :: 0 <= i < |v| ==>
                  && (v[i].phase == Releasing ==> v[i].claimRef.None?)
                  && (v[i].phase == Claimed ==> v[i].claimRef.Some?))
  {
    RecordedAlways(first, log);
  }

  /** A claimed version carries the finalizer, and a record that is gone was unclaimed in
      its last version, however stale the copy the deleting reconcile read. */
  lemma {:induction false} ClaimedRecordStays(first: World, log: seq<Step>, w: World, name: HostName)
    requires Ran(first, log, w) && name in w.hosts
    ensures var h := w.hosts[name];
            && (forall i :: 0 <= i < |h.versions| && h.versions[i].claimRef.Some? ==> h.versions[i].finalizer)
            && h.versions != [] && (h.gone ==> Last(h.versions).claimRef.None?)
  {
    RecordedAlways(first, log);
  }

  function StoredClaim(w: World, name: HostName): Option<Uid>
    requires name in w.hosts
  {
    var v := w.hosts[name].versions;
    if v == [] then None else Last(v).claimRef
  }

  /** The claim write of machine u, or its release write, on this host. */
  predicate ClaimWrite(w: World, step: Step, name: HostName) {
    && step.MachineStep? && step.u in w.machines && step.act.PutStatus? && step.act.ok
    && w.machines[step.u].actor.pc.CasPut? && w.machines[step.u].actor.pc.host == name
  }

  predicate ReleaseWrite(w: World, step: Step, name: HostName) {
    && step.MachineStep? && step.u in w.machines && step.act.PutStatus? && step.act.ok
    && w.machines[step.u].actor.pc.ReleasePut? && w.machines[step.u].actor.local.resolvedHost == Some(name)
  }

  lemma PutWrites(w: World, u: Uid, act: Act, name: HostName)
    requires Recorded(w) && Next(w, MachineStep(u, act)).Some? && name in w.hosts
    requires act.PutStatus? && act.ok && PutTarget(w.machines[u].actor) == Some(name)
    ensures var w', seen := Next(w, MachineStep(u, act)).value, Last(w.hosts[name].versions);
            && name in w'.hosts && w'.hosts[name].versions == w.hosts[name].versions + [act.rec]
            && Last(w'.hosts[name].versions) == act.rec
            && ToPut(u, w.machines[u].actor) == Some(act.rec)
            && SeenByPut(w.machines[u].actor.pc) == Some(seen)
  {
  }

  function SeenByPut(pc: Pc): Option<HostRec> {
    match pc
    case CasPut(_, _, _, seen) => Some(seen)
    case MirrorPut(_, seen) => Some(seen)
    case ReleasePut(_, seen, _) => Some(seen)
    case _ => None
  }

  lemma OnlyPutsWrite(w: World, u: Uid, act: Act, name: HostName)
    requires Recorded(w) && Next(w, MachineStep(u, act)).Some? && name in w.hosts
    requires !(act.PutStatus? && act.ok && PutTarget(w.machines[u].actor) == Some(name))
    ensures var w' := Next(w, MachineStep(u, act)).value;
            name in w'.hosts && w'.hosts[name].versions == w.hosts[name].versions
  {
    hide Next, Move, Possible, HostsAfter, HostsOk, MachineOk;
    OwnStep(w, u, act);
    var m := w.machines[u];
    NoFinalizerPut(w.hosts, u, m.spec, m.stored, m.actor, act);
    VersionsByPut(w.hosts, u, m, act, name);
  }

  lemma VersionsByPut(hosts: map<HostName, Host>, u: Uid, m: Machine, act: Act, name: HostName)
    requires Possible(hosts, m, act) && name in hosts && !act.PutFinalizer?
    requires !(act.PutStatus? && act.ok && PutTarget(m.actor) == Some(name))
    ensures name in HostsAfter(hosts, u, m, act) && HostsAfter(hosts, u, m, act)[name].versions == hosts[name].versions
  {
  }

  lemma HostKeepsClaim(h: Host, act: HostAct)
    requires HostOk(h) && HostNext(h, act).Some?
    ensures Last(HostNext(h, act).value.versions).claimRef == Last(h.versions).claimRef
  {
    if act.PatchSelf? {
      assert RecordOk(h.versions[h.actor.at]);
      ReportedKeepsClaim(h.actor.base, h.actor.pc.report, h.threshold);
    }
  }

  /** claimCAS is the only write that sets a claim, to its own machine on a free host;
      releaseHost the only one that clears it, and what it clears is the claim of the
      record it read. In particular the clear in reconcileReleasing never changes anything. */
  lemma {:induction false} ClaimWriters(first: World, log: seq<Step>, w: World, step: Step, w': World, name: HostName)
    requires Ran(first, log, w) && Next(w, step) == Some(w') && name in w.hosts
    ensures name in w'.hosts
    ensures var c, c' := StoredClaim(w, name), StoredClaim(w', name);
            && (ClaimWrite(w, step, name) ==> c in {None, Some(step.u)} && c' == Some(step.u))
            && (ReleaseWrite(w, step, name) ==> c'.None? && SeenByPut(w.machines[step.u].actor.pc).value.claimRef == c)
            && (c != c' ==> ClaimWrite(w, step, name) || ReleaseWrite(w, step, name))
  {
    hide Init, Recorded, Next, HostNext, HostEvent, Move, Possible, HostsAfter;
    RecordedAlways(first, log);
    SameNames(w, step);
    match step
    case MachineStep(u, act) =>
      OwnStep(w, u, act);
      if act.PutStatus? && act.ok && PutTarget(w.machines[u].actor) == Some(name) {
        HostOkIn(w, name);
        PutWrites(w, u, act, name);
        CasReadFree(w, u);
      } else {
        OnlyPutsWrite(w, u, act, name);
      }
    case HostStep(x, act) =>
      UnclaimedStep(w, step);
      HostOkIn(w, x);
      HostKeepsClaim(w.hosts[x], act);
      HostGrows(w, step, x);
    case Outside(event) =>
      UnclaimedStep(w, step);
      if w'.hosts != w.hosts {
        HostOkIn(w, event.host);
        EventKeepsClaim(w.hosts[event.host], event);
        HostGrows(w, step, event.host);
      }
  }

  /** In every run a machine loses a claim exactly by a release write; if it has not released
      itself, exactly by that of another machine, which has not checked whose claim it clears. */
  lemma {:induction false} LosesClaim(first: World, log: seq<Step>, w: World, step: Step, w': World, name: HostName, u: Uid)
    requires Ran(first, log, w) && Next(w, step) == Some(w') && name in w.hosts && StoredClaim(w, name) == Some(u)
    ensures name in w'.hosts
    ensures StoredClaim(w', name) != Some(u) <==> ReleaseWrite(w, step, name)
    ensures u in w'.machines && !w'.machines[u].hist.released ==>
              (StoredClaim(w', name) != Some(u) <==> ReleaseWrite(w, step, name) && step.u != u)
    ensures ReleaseWrite(w, step, name) ==> (step.u != u <==> Steals(w, step))
  {
    hide Init, Next, Move, Possible, HostsAfter;
    ClaimWriters(first, log, w, step, w', name);
    if step.MachineStep? {
      OwnStep(w, step.u, step.act);
      HistoryReleased(w.hosts, w.machines[step.u], step.act);
    }
  }

  /** In every run the check that releaseHost omits is exactly what a release write needs to
      leave the claims of all other machines alone. */
  lemma {:induction false} FairReleaseSparesOthers(first: World, log: seq<Step>, w: World, step: Step, w': World, name: HostName)
    requires Ran(first, log, w) && Next(w, step) == Some(w') && name in w.hosts && ReleaseWrite(w, step, name)
    ensures FairRelease(step.u, w.machines[step.u].actor) <==>
            forall x, other :: x != step.u && other in w.hosts && StoredClaim(w, other) == Some(x) ==>
              other in w'.hosts && StoredClaim(w', other) == Some(x)
  {
    hide Init, Next;
    ClaimWriters(first, log, w, step, w', name);
    if FairRelease(step.u, w.machines[step.u].actor) {
      forall x, other | x != step.u && other in w.hosts && StoredClaim(w, other) == Some(x)
        ensures other in w'.hosts && StoredClaim(w', other) == Some(x)
      {
        ClaimWriters(first, log, w, step, w', other);
      }
    } else {
      var x := w.machines[step.u].actor.pc.seen.claimRef.value;
      assert StoredClaim(w, name) == Some(x) && x != step.u;
    }
  }

  /** Every versioned write of a machine turns the current version of the host's record into
      what its turn in the life of the host makes of it. */
  lemma {:induction false} WritesTakeTurns(first: World, log: seq<Step>, w: World, u: Uid, act: Act, w': World, name: HostName)
    requires Ran(first, log, w) && Next(w, MachineStep(u, act)) == Some(w') && u in w.machines && name in w.hosts
    requires act.PutStatus? && act.ok && PutTarget(w.machines[u].actor) == Some(name)
    requires var pc := w.machines[u].actor.pc;
             && SeenByPut(pc).Some?
             && var seen := SeenByPut(pc).value;
             if pc.CasPut? then seen.phase == Available && seen.probed else seen.claimRef == Some(u)
    ensures name in w'.hosts && w.hosts[name].versions != [] && w'.hosts[name].versions != []
    ensures var turn := Lifecycle.TurnOf(u, w.machines[u].actor);
            turn.Some? && Lifecycle.Take(Last(w.hosts[name].versions), w.hosts[name].threshold, turn.value) ==
                          Some(Last(w'.hosts[name].versions))
  {
    hide Init, Next, Recorded, ToPut, Lifecycle.Take;
    RecordedAlways(first, log);
    HostOkIn(w, name);
    PutWrites(w, u, act, name);
    CasReadFree(w, u);
    if w.machines[u].actor.pc.ReleasePut? {
      ReleasePhases(w, u);
    }
    Lifecycle.WritesAreTurns(u, w.machines[u].actor, w.hosts[name].threshold);
  }

  lemma ReleasePhases(w: World, u: Uid)
    requires Recorded(w) && u in w.machines && w.machines[u].actor.pc.ReleasePut?
    ensures w.machines[u].actor.pc.phase in {Available, Releasing}
  {
  }

  lemma CasReadFree(w: World, u: Uid)
    requires Recorded(w) && u in w.machines
    ensures var pc := w.machines[u].actor.pc; pc.CasPut? ==> pc.seen.claimRef in {None, Some(u)}
  {
  }

  lemma HostOkIn(w: World, name: HostName)
    requires Recorded(w) && name in w.hosts
    ensures HostOk(w.hosts[name]) && w.hosts[name].versions != []
  {
  }

  lemma HostGrows(w: World, step: Step, name: HostName)
    requires Recorded(w) && Next(w, step).Some? && name in w.hosts
    ensures name in Next(w, step).value.hosts && w.hosts[name].versions <= Next(w, step).value.hosts[name].versions
  {
    StepGrowsHosts(w, step);
    hide Next, Recorded;
  }

  lemma EventKeepsClaim(h: Host, event: Event)
    requires HostOk(h) && HostEvent(h, event).Some?
    ensures Last(HostEvent(h, event).value.versions).claimRef == Last(h.versions).claimRef
  {
  }

  function StoredPhase(w: World, name: HostName): Phase
    requires name in w.hosts
  {
    var v := w.hosts[name].versions;
    if v == [] then Unset else Last(v).phase
  }

  lemma HostPhaseWrite(h: Host, act: HostAct, acts: seq<HostAct>)
    requires HostOk(h) && HostNext(h, act).Some? && HostJustified(acts, h.actor)
    requires Last(h.versions).phase != Available && Last(HostNext(h, act).value.versions).phase == Available
    ensures exists d :: RunDiscovery(Some(d)) in acts
  {
    assert act.PatchSelf?;
    assert RecordOk(h.versions[h.actor.at]);
    assert h.actor.pc.report.Found?;
  }

  lemma ReleasePhase(w: World, u: Uid, rec: HostRec, acts: seq<Act>)
    requires u in w.machines && ToPut(u, w.machines[u].actor) == Some(rec) && rec.phase == Available
    requires SeenByPut(w.machines[u].actor.pc).Some? && SeenByPut(w.machines[u].actor.pc).value.phase != Available
    requires Justified(acts, w.machines[u].spec, w.machines[u].actor)
    ensures Maintained(acts)
  {
  }

  lemma EvidentFor(log: seq<Step>, w: World, u: Uid, name: HostName)
    requires Evident(log, w)
    ensures u in w.machines ==> Justified(Acts(log, u), w.machines[u].spec, w.machines[u].actor)
    ensures name in w.hosts ==> HostJustified(HostActs(log, name), w.hosts[name].actor)
  {
  }

  /** Whenever the stored phase of a host becomes Available, maintenance has answered
      earlier in the reconcile that writes it. */
  lemma {:induction false} AvailableIsAnswered(first: World, log: seq<Step>, w: World, step: Step, w': World, name: HostName)
    requires Ran(first, log, w) && Next(w, step) == Some(w') && name in w.hosts && name in w'.hosts
    requires StoredPhase(w, name) != Available && StoredPhase(w', name) == Available
    ensures (step.HostStep? && exists d :: RunDiscovery(Some(d)) in HostActs(log, name)) ||
            (step.MachineStep? && ProbeMaintenance(true) in Acts(log, step.u))
  {
    hide Init, Recorded, Evident, Next, HostNext, HostEvent, Move, Possible, HostsAfter, ToPut, Justified, HostJustified;
    RecordedAlways(first, log);
    EvidentAlways(first, log, w);
    HostOkIn(w, name);
    match step
    case MachineStep(u, act) =>
      OwnStep(w, u, act);
      EvidentFor(log, w, u, name);
      if act.PutStatus? && act.ok && PutTarget(w.machines[u].actor) == Some(name) {
        PutWrites(w, u, act, name);
        ReleasePhase(w, u, act.rec, Acts(log, u));
      } else {
        OnlyPutsWrite(w, u, act, name);
      }
    case HostStep(x, act) =>
      UnclaimedStep(w, step);
      EvidentFor(log, w, "", name);
      HostPhaseWrite(w.hosts[name], act, HostActs(log, name));
    case Outside(event) =>
      UnclaimedStep(w, step);
      EventKeepsPhase(w.hosts[event.host], event);
  }

  lemma EventKeepsPhase(h: Host, event: Event)
    requires HostOk(h) && HostEvent(h, event).Some?
    ensures Last(HostEvent(h, event).value.versions).phase == Last(h.versions).phase
  {
  }

  /** A successful apply hits a machine in maintenance, one that carries this cluster's
      bundle, or one that carries the referenced bundle and has refused it, and everything
      else, in the same reconcile. A worker's first apply comes after its reconcile found
      the control plane ready. */
  lemma {:induction false} ApplyTargets(first: World, log: seq<Step>, w: World, u: Uid, tag: string)
    requires Ran(first, log, w) && Next(w, MachineStep(u, ApplyConfig(true, tag))).Some?
    ensures u in w.machines && Target(w.machines[u].actor) in w.hosts
    ensures var m, acts := w.machines[u], Acts(log, u);
            var config := w.hosts[Target(m.actor)].config;
            && (|| config.Empty?
                || config.bundle == m.spec.cluster
                || (&& Accepts(config, m.spec, ReferencedBundle)
                    && Refused(acts) && ProbeBundle(ReferencedBundle, false) in acts))
            && (m.spec.worker && !m.actor.local.ready ==> CheckControlPlane(true) in acts)
  {
    hide Init, Evident, Next, Move, HostsAfter, StoredAfter, HistoryAfter;
    EvidentAlways(first, log, w);
    OwnStep(w, u, ApplyConfig(true, tag));
    EvidentFor(log, w, u, "");
  }

  /** No foreign machine is ever overwritten, when a probe and an apply with the same
      credentials agree: if whoever refused the referenced bundle in this reconcile would
      refuse it still, a successful apply hits an unconfigured machine or one of this cluster. */
  lemma {:induction false} ForeignNeverOverwritten(first: World, log: seq<Step>, w: World, u: Uid, tag: string)
    requires Ran(first, log, w) && Next(w, MachineStep(u, ApplyConfig(true, tag))).Some?
    requires var m := w.machines[u];
             ProbeBundle(ReferencedBundle, false) in Acts(log, u) ==>
               !Accepts(w.hosts[Target(m.actor)].config, m.spec, ReferencedBundle)
    ensures var m := w.machines[u]; var config := w.hosts[Target(m.actor)].config;
            config.Empty? || config.bundle == m.spec.cluster
  {
    hide Init, Next, Accepts;
    ApplyTargets(first, log, w, u, tag);
  }

  // ---------- In every run in which nothing is stolen ----------

  /** A host whose disk holds machine u's config is claimed by u: a crash between the
      apply and the status patch loses nothing, and an unclaimed host carries no applied
      config. */
  lemma {:induction false} CleanReturn(first: World, log: seq<Step>, w: World, name: HostName)
    requires Ran(first, log, w) && NothingStolen(first, log) && name in w.hosts
    ensures var h := w.hosts[name];
            && (h.config.Configured? && h.config.owner.Some? ==> Claimant(h) == h.config.owner)
            && (Claimant(h).None? ==> h.config.Empty? || h.config.owner.None?)
  {
    hide Init, Next, Recorded;
    OwnedAlways(first, log);
  }

  /** A machine that has not released owns the host it has resolved. */
  lemma {:induction false} ResolvedIsOwned(first: World, log: seq<Step>, w: World, u: Uid, name: HostName)
    requires Ran(first, log, w) && NothingStolen(first, log) && u in w.machines
    requires !w.machines[u].hist.released && w.machines[u].stored.resolvedHost == Some(name)
    ensures Owns(w.hosts, name, u)
  {
    hide Init, Next, Recorded;
    OwnedAlways(first, log);
    assert Holds(w.machines[u], name);
  }

  /** Two machines that have not released never resolve the same host or share a
      provider id. */
  lemma {:induction false} ResolvedApart(first: World, log: seq<Step>, w: World, u: Uid, x: Uid)
    requires Ran(first, log, w) && NothingStolen(first, log) && u in w.machines && x in w.machines && u != x
    requires !w.machines[u].hist.released && !w.machines[x].hist.released
    ensures var s, t := w.machines[u].stored, w.machines[x].stored;
            && (s.resolvedHost.Some? ==> s.resolvedHost != t.resolvedHost)
            && (s.providerID != "" ==> s.providerID != t.providerID)
  {
    hide Init, Next, Recorded, Owned, Followed;
    FollowedAlways(first, log);
    FollowedMachine(w, u);
    FollowedMachine(w, x);
    var s, t := w.machines[u].stored, w.machines[x].stored;
    if s.resolvedHost.Some? && s.resolvedHost == t.resolvedHost {
      ResolvedIsOwned(first, log, w, u, s.resolvedHost.value);
      ResolvedIsOwned(first, log, w, x, s.resolvedHost.value);
    }
    if s.providerID != "" && s.providerID == t.providerID {
      var a, b := w.machines[u].hist.adopted.value, w.machines[x].hist.adopted.value;
      assert Holds(w.machines[u], a) && Holds(w.machines[x], b);
      assert Owns(w.hosts, a, u) && Owns(w.hosts, b, x);
      SamePrefix(w.hosts[a].versions[0].publicIP, w.hosts[b].versions[0].publicIP);
      Apart(w, a, b);
    }
  }

  lemma FollowedMachine(w: World, u: Uid)
    requires Followed(w) && u in w.machines
    ensures Recorded(w) && OwnershipOk(w.hosts, u, w.machines[u]) && BookOk(w.machines[u])
    ensures MachineFollowed(w.hosts, w.machines[u])
  {
  }

  lemma SamePrefix(x: string, y: string)
    requires PROVIDER_PREFIX + x == PROVIDER_PREFIX + y
    ensures x == y
  {
    assert (PROVIDER_PREFIX + x)[|PROVIDER_PREFIX|..] == x;
    assert (PROVIDER_PREFIX + y)[|PROVIDER_PREFIX|..] == y;
  }

  lemma Apart(w: World, a: HostName, b: HostName)
    requires Recorded(w) && a in w.hosts && b in w.hosts && a != b
    ensures w.hosts[a].versions != [] && w.hosts[b].versions != []
    ensures w.hosts[a].versions[0].publicIP != w.hosts[b].versions[0].publicIP
  {
  }

}
