/** What the code does not guarantee about claims: exactly which writes break the clean
    return, part the phase from the claim or lose a claim, and runs in which they do. */
module Counterexamples {
  import opened Common
  import opened Records
  import opened Discovery
  import opened HostProtocol
  import opened MachineProtocol
  import opened World
  import opened HostHistory
  import opened Ownership
  import opened UpgradeRecord
  import opened Attempts
  import opened Reconciles
  import opened ClaimProperties
  import opened UpgradeProperties
  import opened ResolvedHosts
  import opened Lifecycle
  import opened Runs
  import opened Walkthrough

  // ---------- Which writes break the clean return ----------

  predicate ForeignApply(w: World, step: Step, name: HostName) {
    && step.MachineStep? && step.u in w.machines && step.act.ApplyConfig? && step.act.ok
    && Target(w.machines[step.u].actor) == name && name in w.hosts && Claimant(w.hosts[name]) != Some(step.u)
  }

  lemma ConfigByAct(hosts: map<HostName, Host>, u: Uid, m: Machine, act: Act, name: HostName)
    requires Possible(hosts, m, act) && name in hosts
    ensures name in HostsAfter(hosts, u, m, act)
    ensures var h, h' := hosts[name], HostsAfter(hosts, u, m, act)[name];
            && h'.gone == h.gone
            && (if act.ApplyConfig? && act.ok && Target(m.actor) == name then Owner(h'.config) == Some(u)
                else h'.config == h.config || Owner(h'.config).None?)
            && (act.PutStatus? || act.PutFinalizer? ==> h'.config == h.config)
            && (act.PutStatus? && act.ok && PutTarget(m.actor) == Some(name) ==> !h.gone)
  {
  }

  lemma UndisturbedConfig(h: Host, h': Host)
    requires Undisturbed(h, h') && ConfigOk(h)
    ensures ConfigOk(h')
  {
  }

  /** In every run, the writes that leave a host carrying the config of a machine that does
      not claim it are exactly these: a release write on a host that has got a config since
      its reconcile probed it, and an apply to a host that another machine has taken. */
  lemma {:induction false} CleanReturnBreaks(first: World, log: seq<Step>, w: World, step: Step, w': World, name: HostName)
    requires Ran(first, log, w) && Next(w, step) == Some(w') && name in w.hosts && name in w'.hosts
    requires ConfigOk(w.hosts[name])
    ensures !ConfigOk(w'.hosts[name]) <==>
            (ReleaseWrite(w, step, name) && Owner(w.hosts[name].config).Some?) || ForeignApply(w, step, name)
  {
    hide Init, Recorded, Next, HostNext, HostEvent, Move, Possible, HostsAfter, Undisturbed, ConfigOk;
    RecordedAlways(first, log);
    ClaimWriters(first, log, w, step, w', name);
    HostOkIn(w, name);
    match step
    case MachineStep(u, act) =>
      OwnStep(w, u, act);
      ConfigByAct(w.hosts, u, w.machines[u], act, name);
      HostGrows(w, step, name);
      BrokenByAct(w, u, act, w', name);
    case HostStep(x, act) =>
      UnclaimedStep(w, step);
      if x == name {
        HostNextUndisturbed(w.hosts[name], act);
        UndisturbedConfig(w.hosts[name], w'.hosts[name]);
      }
    case Outside(event) =>
      UnclaimedStep(w, step);
      if w'.hosts != w.hosts && event.host == name {
        HostEventUndisturbed(w.hosts[name], event);
        UndisturbedConfig(w.hosts[name], w'.hosts[name]);
      }
  }

  lemma BrokenByAct(w: World, u: Uid, act: Act, w': World, name: HostName)
    requires name in w.hosts && name in w'.hosts && ConfigOk(w.hosts[name]) && u in w.machines
    requires w.hosts[name].versions != [] && w'.hosts[name].versions != [] && w'.hosts[name].gone == w.hosts[name].gone
    requires act.PutStatus? && act.ok && PutTarget(w.machines[u].actor) == Some(name) ==> !w.hosts[name].gone
    requires var step, c, c' := MachineStep(u, act), StoredClaim(w, name), StoredClaim(w', name);
             && (ClaimWrite(w, step, name) ==> c in {None, Some(u)} && c' == Some(u))
             && (ReleaseWrite(w, step, name) ==> c'.None?)
             && (c != c' ==> ClaimWrite(w, step, name) || ReleaseWrite(w, step, name))
    requires var h, h' := w.hosts[name], w'.hosts[name];
             && (if act.ApplyConfig? && act.ok && Target(w.machines[u].actor) == name then Owner(h'.config) == Some(u)
                 else h'.config == h.config || Owner(h'.config).None?)
             && (act.PutStatus? || act.PutFinalizer? ==> h'.config == h.config)
    ensures !ConfigOk(w'.hosts[name]) <==>
            (ReleaseWrite(w, MachineStep(u, act), name) && Owner(w.hosts[name].config).Some?) ||
            ForeignApply(w, MachineStep(u, act), name)
  {
  }

  /** As long as nothing has been stolen, the only write that breaks the clean return is a
      release write of a record that carries the claim of another machine whose config is on
      the disk. */
  lemma {:induction false} TheftBreaksCleanReturn(first: World, log: seq<Step>, w: World, step: Step, w': World, name: HostName)
    requires Ran(first, log, w) && NothingStolen(first, log)
    requires Next(w, step) == Some(w') && name in w.hosts && name in w'.hosts
    ensures !ConfigOk(w'.hosts[name]) <==>
            && ReleaseWrite(w, step, name) && !FairRelease(step.u, w.machines[step.u].actor)
            && Owner(w.hosts[name].config) == StoredClaim(w, name)
  {
    hide Init, Next, Recorded, OwnershipOk, Possible, Move, HostsAfter;
    OwnedAlways(first, log);
    CleanReturnBreaks(first, log, w, step, w', name);
    ClaimWriters(first, log, w, step, w', name);
    if step.MachineStep? {
      OwnStep(w, step.u, step.act);
      NoForeignApply(w, step.u, step.act, name);
      ReleasesWiped(w, step.u, step.act, name);
    }
  }

  lemma NoForeignApply(w: World, u: Uid, act: Act, name: HostName)
    requires Owned(w) && u in w.machines && Move(u, w.machines[u].spec, w.machines[u].actor, act).Some?
    ensures !ForeignApply(w, MachineStep(u, act), name)
  {
    var m := w.machines[u];
    if act.ApplyConfig? {
      assert OwnershipOk(w.hosts, u, m) && m.actor.pc.Apply?;
      assert Holds(m, Target(m.actor));
    }
  }

  lemma ReleasesWiped(w: World, u: Uid, act: Act, name: HostName)
    requires Owned(w) && u in w.machines && Possible(w.hosts, w.machines[u], act) && name in w.hosts
    ensures ReleaseWrite(w, MachineStep(u, act), name) ==> Owner(w.hosts[name].config) != Some(u) && !w.hosts[name].gone
  {
    assert OwnershipOk(w.hosts, u, w.machines[u]);
  }

  // ---------- Which writes part the phase from the claim ----------

  predicate PhaseAgrees(h: Host) {
    h.versions != [] && Last(h.versions).claimRef.Some? ==> Last(h.versions).phase == Phase.Claimed
  }

  /** A patch of the host reconciler that carries a phase onto a claimed record. */
  predicate LatePatch(w: World, step: Step, name: HostName) {
    && step.HostStep? && step.host == name && step.hostAct.PatchSelf? && name in w.hosts
    && StoredClaim(w, name).Some? && step.hostAct.rec.phase != w.hosts[name].actor.base.phase
  }

  lemma PhaseByHost(h: Host, act: HostAct)
    requires HostOk(h) && HostNext(h, act).Some? && PhaseAgrees(h)
    ensures !PhaseAgrees(HostNext(h, act).value) <==>
            act.PatchSelf? && Last(h.versions).claimRef.Some? && act.rec.phase != h.actor.base.phase
  {
    if act.PatchSelf? {
      assert RecordOk(h.versions[h.actor.at]);
      ReportedKeepsClaim(h.actor.base, h.actor.pc.report, h.threshold);
    }
  }

  lemma PhaseByEvent(h: Host, event: Event)
    requires HostOk(h) && HostEvent(h, event).Some? && PhaseAgrees(h)
    ensures PhaseAgrees(HostEvent(h, event).value)
  {
  }

  lemma PhaseByPut(u: Uid, a: Actor, rec: HostRec, v: seq<HostRec>)
    requires ToPut(u, a) == Some(rec) && v != [] && SeenByPut(a.pc) == Some(Last(v))
    requires Last(v).claimRef.Some? ==> Last(v).phase == Phase.Claimed
    ensures rec.claimRef.Some? ==> rec.phase == Phase.Claimed
  {
  }

  /** In every run, what leaves a claimed host in another phase is exactly a host patch that
      carries a phase computed from a version older than the claim. The claim, not the phase,
      is the lock. */
  lemma {:induction false} PhasePartsFromClaim(first: World, log: seq<Step>, w: World, step: Step, w': World, name: HostName)
    requires Ran(first, log, w) && Next(w, step) == Some(w') && name in w.hosts && name in w'.hosts
    requires PhaseAgrees(w.hosts[name])
    ensures !PhaseAgrees(w'.hosts[name]) <==> LatePatch(w, step, name)
  {
    hide Init, Recorded, Next, HostNext, HostEvent, Move, Possible, HostsAfter, ToPut;
    RecordedAlways(first, log);
    HostOkIn(w, name);
    match step
    case MachineStep(u, act) =>
      OwnStep(w, u, act);
      if act.PutStatus? && act.ok && PutTarget(w.machines[u].actor) == Some(name) {
        PutWrites(w, u, act, name);
        PhaseByPut(u, w.machines[u].actor, act.rec, w.hosts[name].versions);
      } else {
        OnlyPutsWrite(w, u, act, name);
      }
    case HostStep(x, act) =>
      UnclaimedStep(w, step);
      if x == name {
        PhaseByHost(w.hosts[name], act);
      }
    case Outside(event) =>
      UnclaimedStep(w, step);
      if w'.hosts != w.hosts && event.host == name {
        PhaseByEvent(w.hosts[name], event);
      }
  }

  /** The host's reconciler has probed in vain and is about to patch. */
  predicate Silenced(h: Host) {
    && Claimable(h) && h.actor.pc == HostPc.Report(Silent) && h.actor.base == Last(h.versions)
    && h.threshold == 1
  }

  lemma {:induction false} FallsSilent(first: World, log: seq<Step>, w: World, name: HostName)
    returns (log': seq<Step>, w': World)
    requires Ran(first, log, w) && name in w.hosts && Claimable(w.hosts[name]) && w.hosts[name].actor.pc.HostIdle?
    requires w.hosts[name].threshold == 1
    ensures Ran(first, log', w') && w'.machines == w.machines
    ensures name in w'.hosts && Silenced(w'.hosts[name])
  {
    hide Ran, HostDoes;
    var h := w.hosts[name];
    var rest: seq<HostAct> := [ProbeLiveness(false)];
    var h1 := Reads(h, rest);
    var h2 := Lifecycle.Probes(h1, false, []);
    assert rest + [] == rest;
    var acts := [ReadSelf(|h.versions| - 1, Last(h.versions))] + rest;
    HostDoesNothing(h2);
    ExtendHostDoes(first, log, w, name, acts);
    log', w' := log + AsHostSteps(name, acts), w.(hosts := w.hosts[name := h2]);
  }

  lemma HostDoesNothing(h: Host)
    ensures HostDoes(h, []) == Some(h)
  {
  }

  /** Such a patch happens: a host stops answering, is claimed, and is then patched to
      Unavailable by the probe that came before the claim. */
  lemma {:induction false} ClaimedYetUnavailable()
    returns (first: World, log: seq<Step>, w: World, step: Step, w': World)
    ensures Ran(first, log, w) && Next(w, step) == Some(w') && "h" in w.hosts && "h" in w'.hosts
    ensures PhaseAgrees(w.hosts["h"]) && LatePatch(w, step, "h")
    ensures StoredClaim(w', "h") == Some("a") && StoredPhase(w', "h") == Unavailable
  {
    hide Ran, Next, Unclaimed, Preflights, DiscoveryLabels;
    first := OneHostTwoMachines();
    StartsFresh();
    log, w := Discovered(first, [], first, "h", PLAIN);
    log, w := FallsSilent(first, log, w, "h");
    var before := w.hosts["h"];
    log, w := Claims(first, log, w, "a", "h");
    var rec := Reported(before.actor.base, Silent, 1);
    step := HostStep("h", PatchSelf(rec));
    w' := PatchedLate(w, before);
  }

  lemma PatchedLate(w: World, before: Host) returns (w': World)
    requires "h" in w.hosts && Silenced(before)
    requires w.hosts["h"] == Store(before, Last(before.versions).(claimRef := Some("a"), phase := Phase.Claimed))
    ensures Next(w, HostStep("h", PatchSelf(Reported(before.actor.base, Silent, 1)))) == Some(w') && "h" in w'.hosts
    ensures Reported(before.actor.base, Silent, 1).phase == Unavailable
    ensures StoredClaim(w', "h") == Some("a") && StoredPhase(w', "h") == Unavailable
  {
    hide DiscoveryLabels, PatchLabels;
    w' := Next(w, HostStep("h", PatchSelf(Reported(before.actor.base, Silent, 1)))).value;
  }

  // ---------- A release that clears another machine's claim ----------

  /** A machine marked for deletion that believes in this host. */
  predicate Deleting(m: Machine, name: HostName) {
    m.actor.pc.Idle? && !m.gone && m.stored.deleting && m.stored.finalizer && m.stored.resolvedHost == Some(name)
  }

  predicate Releasing(m: Machine, h: Host, name: HostName) {
    && h.versions != [] && m.actor.pc == ReleasePut(|h.versions| - 1, Last(h.versions), Available)
    && m.actor.local == m.stored && m.stored.deleting && m.stored.finalizer && !m.gone && m.stored.resolvedHost == Some(name)
  }

  lemma DeleteStarts(w: World, u: Uid, name: HostName)
    requires u in w.machines && Deleting(w.machines[u], name)
    ensures var step, s := MachineStep(u, StartDelete(w.machines[u].stored)), w.machines[u].stored;
            && Next(w, step).Some?
            && var w1 := Next(w, step).value;
            && w1.hosts == w.hosts && w1.machines.Keys == w.machines.Keys
            && (forall x :: x in w.machines && x != u ==> w1.machines[x] == w.machines[x])
            && w1.machines[u] == w.machines[u].(actor := Actor(ReleaseGet, s, s, "", false, false), hist := w1.machines[u].hist)
            && At(w1, u, Actor(ReleaseGet, s, s, "", false, false)) == w1
  {
    var s := w.machines[u].stored;
    var w1 := Next(w, MachineStep(u, StartDelete(s))).value;
    assert At(w1, u, Actor(ReleaseGet, s, s, "", false, false)).machines == w1.machines;
  }

  lemma ReleaseMoves(w: World, u: Uid, a1: Actor, name: HostName)
    requires u in w.machines && a1.pc.ReleaseGet? && a1.local.resolvedHost == Some(name)
    requires name in w.hosts && w.hosts[name].versions != [] && w.hosts[name].config.Empty?
    ensures var h := w.hosts[name];
            var a2 := a1.(pc := ReleaseProbe(|h.versions| - 1, Last(h.versions)));
            var a3 := a1.(answered := true, pc := ReleasePut(|h.versions| - 1, Last(h.versions), Available));
            && Next(At(w, u, a1), MachineStep(u, ReadHost(Current(h)))) == Some(At(w, u, a2))
            && Next(At(w, u, a2), MachineStep(u, ProbeMaintenance(true))) == Some(At(w, u, a3))
  {
    hide Next;
    var h := w.hosts[name];
    var a2 := a1.(pc := ReleaseProbe(|h.versions| - 1, Last(h.versions)));
    Moves(w, u, a1, ReadHost(Current(h)), a2);
    Moves(w, u, a2, ProbeMaintenance(true),
          a1.(answered := true, pc := ReleasePut(|h.versions| - 1, Last(h.versions), Available)));
  }

  lemma {:induction false} ReleaseProbes(first: World, log: seq<Step>, w: World, u: Uid, name: HostName)
    returns (log': seq<Step>, w': World)
    requires Ran(first, log, w) && u in w.machines && Deleting(w.machines[u], name)
    requires name in w.hosts && w.hosts[name].versions != [] && w.hosts[name].config.Empty?
    ensures Ran(first, log', w') && w'.hosts == w.hosts && w'.machines.Keys == w.machines.Keys
    ensures forall x :: x in w.machines && x != u ==> w'.machines[x] == w.machines[x]
    ensures Releasing(w'.machines[u], w.hosts[name], name)
  {
    hide Ran, Next, Move, Possible;
    var h, s := w.hosts[name], w.machines[u].stored;
    var start, seen := StartDelete(s), ReadHost(Current(h));
    var a1 := Actor(ReleaseGet, s, s, "", false, false);
    var a2 := a1.(pc := ReleaseProbe(|h.versions| - 1, Last(h.versions)));
    var a3 := a1.(answered := true, pc := ReleasePut(|h.versions| - 1, Last(h.versions), Available));
    DeleteStarts(w, u, name);
    var w1 := Next(w, MachineStep(u, start)).value;
    Extend(first, log, w, MachineStep(u, start), w1);
    ReleaseMoves(w1, u, a1, name);
    Extend(first, log + [MachineStep(u, start)], w1, MachineStep(u, seen), At(w1, u, a2));
    w' := At(w1, u, a3);
    var log2 := log + [MachineStep(u, start)] + [MachineStep(u, seen)];
    Extend(first, log2, At(w1, u, a2), MachineStep(u, ProbeMaintenance(true)), w');
    log' := log2 + [MachineStep(u, ProbeMaintenance(true))];
  }

  lemma {:induction false} Releases(first: World, log: seq<Step>, w: World, u: Uid, name: HostName)
    returns (log': seq<Step>, w': World)
    requires Ran(first, log, w) && u in w.machines && name in w.hosts && !w.hosts[name].gone
    requires Releasing(w.machines[u], w.hosts[name], name)
    ensures Ran(first, log', w') && w'.machines.Keys == w.machines.Keys && name in w'.hosts
    ensures forall x :: x in w.machines && x != u ==> w'.machines[x] == w.machines[x]
    ensures Deleting(w'.machines[u], name)
    ensures w'.hosts[name] == Store(w.hosts[name], Last(w.hosts[name].versions).(phase := Available, claimRef := None))
  {
    hide Ran, Next, Deleting;
    var s1 := MachineStep(u, PutStatus(Last(w.hosts[name].versions).(phase := Available, claimRef := None), true));
    var s2 := MachineStep(u, RemoveFinalizer(false));
    GivesBack(w, u, name);
    var w1 := Next(w, s1).value;
    KeepsFinalizer(w1, u, name);
    w' := Next(w1, s2).value;
    Extend(first, log, w, s1, w1);
    Extend(first, log + [s1], w1, s2, w');
    log' := log + [s1] + [s2];
  }

  predicate Released(m: Machine, name: HostName) {
    m.actor.pc.ReleaseFinalizer? && !m.gone && m.stored.deleting && m.stored.finalizer && m.stored.resolvedHost == Some(name)
  }

  lemma GivesBack(w: World, u: Uid, name: HostName)
    requires u in w.machines && name in w.hosts && !w.hosts[name].gone
    requires Releasing(w.machines[u], w.hosts[name], name)
    ensures var rec := Last(w.hosts[name].versions).(phase := Available, claimRef := None);
            var step := MachineStep(u, PutStatus(rec, true));
            && Next(w, step).Some?
            && var w' := Next(w, step).value;
            && w'.hosts == w.hosts[name := Store(w.hosts[name], rec)] && w'.machines.Keys == w.machines.Keys
            && (forall x :: x in w.machines && x != u ==> w'.machines[x] == w.machines[x])
            && Released(w'.machines[u], name)
  {
    hide AdoptMove, UpgradeMove, FinalMove, Intended, AfterPatch, PatchMachine, AfterRead, LeastCandidate;
  }

  lemma KeepsFinalizer(w: World, u: Uid, name: HostName)
    requires u in w.machines && Released(w.machines[u], name)
    ensures var step := MachineStep(u, RemoveFinalizer(false));
            && Next(w, step).Some?
            && var w' := Next(w, step).value;
            && w'.hosts == w.hosts && w'.machines.Keys == w.machines.Keys
            && (forall x :: x in w.machines && x != u ==> w'.machines[x] == w.machines[x])
            && Deleting(w'.machines[u], name)
  {
  }

  /** A machine that has claimed the host but not probed it yet is deleted; its reconcile
      is cut short. */
  lemma {:induction false} IsDeleted(first: World, log: seq<Step>, w: World, u: Uid, name: HostName, ip: string)
    returns (log': seq<Step>, w': World)
    requires Ran(first, log, w) && u in w.machines && Preflights(w.machines[u], name, ip)
    ensures Ran(first, log', w') && w'.hosts == w.hosts && w'.machines.Keys == w.machines.Keys
    ensures forall x :: x in w.machines && x != u ==> w'.machines[x] == w.machines[x]
    ensures Deleting(w'.machines[u], name)
  {
    hide Init, ClaimMove, AdoptMove, UpgradeMove, Intended, AfterPatch, PatchMachine, HostEvent, HostNext;
    var s1, s2 := Outside(DeleteMachine(u)), MachineStep(u, Abort);
    var w1 := Next(w, s1).value;
    Extend(first, log, w, s1, w1);
    Crashes(w1, u);
    w' := Next(w1, s2).value;
    Extend(first, log + [s1], w1, s2, w');
    log' := log + [s1] + [s2];
  }

  /** It probes and applies its config. */
  lemma {:induction false} Applies(first: World, log: seq<Step>, w: World, u: Uid, name: HostName, ip: string)
    returns (log': seq<Step>, w': World)
    requires Ran(first, log, w) && u in w.machines && Preflights(w.machines[u], name, ip) && !w.machines[u].spec.worker
    requires name in w.hosts && w.hosts[name].config.Empty?
    ensures Ran(first, log', w') && w'.machines.Keys == w.machines.Keys && name in w'.hosts
    ensures forall x :: x in w.machines && x != u ==> w'.machines[x] == w.machines[x]
    ensures w'.machines[u].stored == w.machines[u].stored && w'.machines[u].hist.released == w.machines[u].hist.released
    ensures var h, h' := w.hosts[name], w'.hosts[name];
            h'.versions == h.versions && h'.gone == h.gone && Owner(h'.config) == Some(u)
  {
    hide Ran, Next, ClaimMove, UpgradeMove, FinalMove, Intended, AfterPatch, PatchMachine;
    var s1, s2 := MachineStep(u, ProbeMaintenance(true)), MachineStep(u, ApplyConfig(true, ""));
    var a := w.machines[u].actor.(answered := true, pc := Apply(Insecure));
    MovesTo(w, u, ProbeMaintenance(true), a);
    var w1 := At(w, u, a);
    Extend(first, log, w, s1, w1);
    w' := AppliesNow(w1, u, name);
    Extend(first, log + [s1], w1, s2, w');
    log' := log + [s1] + [s2];
  }

  lemma AppliesNow(w: World, u: Uid, name: HostName) returns (w': World)
    requires u in w.machines && w.machines[u].actor.pc == Apply(Insecure) && w.machines[u].actor.local.resolvedHost == Some(name)
    requires name in w.hosts && w.hosts[name].config.Empty?
    ensures Next(w, MachineStep(u, ApplyConfig(true, ""))) == Some(w') && w'.machines.Keys == w.machines.Keys && name in w'.hosts
    ensures forall x :: x in w.machines && x != u ==> w'.machines[x] == w.machines[x]
    ensures w'.machines[u].stored == w.machines[u].stored && w'.machines[u].hist == w.machines[u].hist
    ensures var h, h' := w.hosts[name], w'.hosts[name];
            h'.versions == h.versions && h'.gone == h.gone && Owner(h'.config) == Some(u)
  {
    hide ClaimMove, UpgradeMove, FinalMove, Intended, AfterPatch, PatchMachine;
    w' := Next(w, MachineStep(u, ApplyConfig(true, ""))).value;
  }

  function OneHostTwoMachines(): World {
    var spec := MachineSpec(Some("h"), "", "c", None, false, 1, 1);
    var m := Machine(spec, NEW_MACHINE, false, IDLE_MACHINE, NO_HISTORY);
    World(map["h" := Host([NEW_HOST], false, 1, IDLE_HOST, Empty, 0, "", "", "", 0)], map["a" := m, "b" := m])
  }

  lemma StartsFresh()
    ensures var w := OneHostTwoMachines();
            && Ran(w, [], w) && FreshHost(w.hosts["h"]) && Unclaimed(w.machines["a"], "h") && Unclaimed(w.machines["b"], "h")
  {
  }

  /** A claim taken, probed and released again, but for the finalizer. */
  lemma {:induction false} ReleasedOnce(first: World, log: seq<Step>, w: World, u: Uid, name: HostName)
    returns (log': seq<Step>, w': World)
    requires Ran(first, log, w) && u in w.machines && Unclaimed(w.machines[u], name)
    requires name in w.hosts && Claimable(w.hosts[name]) && w.hosts[name].config.Empty?
    ensures Ran(first, log', w') && w'.machines.Keys == w.machines.Keys && Deleting(w'.machines[u], name)
    ensures forall x :: x in w.machines && x != u ==> w'.machines[x] == w.machines[x]
    ensures name in w'.hosts && Claimable(w'.hosts[name]) && w'.hosts[name].config.Empty?
  {
    hide Ran, Next, Unclaimed, Preflights, Deleting, Releasing;
    log', w' := Claims(first, log, w, u, name);
    log', w' := IsDeleted(first, log', w', u, name, Last(w.hosts[name].versions).publicIP);
    log', w' := ReleaseProbes(first, log', w', u, name);
    log', w' := Releases(first, log', w', u, name);
  }

  lemma StillReleasing(m: Machine, h: Host, h': Host, name: HostName)
    requires Releasing(m, h, name) && h'.versions == h.versions
    ensures Releasing(m, h', name)
  {
  }

  /** Machine b claims the host and applies its config between the second probe and the
      second release write of machine a. */
  lemma {:induction false} ReleasedTwice(first: World, log: seq<Step>, w: World, a: Uid, b: Uid, name: HostName)
    returns (log': seq<Step>, w': World)
    requires Ran(first, log, w) && a in w.machines && b in w.machines && a != b
    requires Deleting(w.machines[a], name) && Unclaimed(w.machines[b], name) && !w.machines[b].spec.worker
    requires name in w.hosts && Claimable(w.hosts[name]) && w.hosts[name].config.Empty?
    ensures Ran(first, log', w') && name in w'.hosts && b in w'.machines
    ensures Claimant(w'.hosts[name]).None? && !w'.hosts[name].gone && StoredPhase(w', name) == Available
    ensures Owner(w'.hosts[name].config) == Some(b)
    ensures !w'.machines[b].hist.released && w'.machines[b].stored.resolvedHost == Some(name)
  {
    hide Ran, Next, Unclaimed, Deleting, Releasing;
    var ip := Last(w.hosts[name].versions).publicIP;
    log', w' := Claims(first, log, w, b, name);
    log', w' := ReleaseProbes(first, log', w', a, name);
    var before := w'.hosts[name];
    log', w' := Applies(first, log', w', b, name, ip);
    StillReleasing(w'.machines[a], before, w'.hosts[name], name);
    log', w' := Releases(first, log', w', a, name);
  }

  /** Such a release happens: machine a releases its host but its finalizer update fails; b
      claims the host; a's next delete reconcile probes it before b applies its config, and
      then clears b's claim. The host is Available and unclaimed with b's config on its disk. */
  lemma {:induction false} SecondReleaseSteals() returns (first: World, log: seq<Step>, w: World)
    ensures Ran(first, log, w) && "h" in w.hosts && "b" in w.machines
    ensures Claimant(w.hosts["h"]).None? && !w.hosts["h"].gone && StoredPhase(w, "h") == Available
    ensures Owner(w.hosts["h"].config) == Some("b")
    ensures !w.machines["b"].hist.released && w.machines["b"].stored.resolvedHost == Some("h")
    ensures !NothingStolen(first, log)
  {
    hide Ran, Next, Unclaimed, Deleting, NothingStolen;
    first := OneHostTwoMachines();
    StartsFresh();
    log, w := Discovered(first, [], first, "h", PLAIN);
    log, w := ReleasedOnce(first, log, w, "a", "h");
    log, w := ReleasedTwice(first, log, w, "a", "b", "h");
    if NothingStolen(first, log) {
      CleanReturn(first, log, w, "h");
      assert false;
    }
  }

  // ---------- A claim that nobody records ----------

  lemma {:induction false} LeavesOrphan(first: World, log: seq<Step>, w: World, u: Uid, name: HostName)
    returns (log': seq<Step>, w': World)
    requires Ran(first, log, w) && u in w.machines && name in w.hosts && Claimable(w.hosts[name])
    requires var m, h := w.machines[u], w.hosts[name];
             && m.actor.pc == CasPut(name, Last(h.versions).publicIP, |h.versions| - 1, Last(h.versions))
             && !m.gone && !m.hist.released && m.stored.finalizer && !m.stored.deleting && m.stored.resolvedHost.None?
    ensures Ran(first, log', w') && w'.machines.Keys == w.machines.Keys && name in w'.hosts
    ensures forall x :: x in w.machines && x != u ==> w'.machines[x] == w.machines[x]
    ensures !w'.machines[u].hist.released && w'.machines[u].gone && w'.machines[u].stored.resolvedHost.None?
    ensures Claimant(w'.hosts[name]) == Some(u) && StoredPhase(w', name) == Phase.Claimed
  {
    hide Ran, Next;
    var s1 := MachineStep(u, PutStatus(Last(w.hosts[name].versions).(claimRef := Some(u), phase := Phase.Claimed), true));
    Wins(w, u, name);
    var w1 := Next(w, s1).value;
    Extend(first, log, w, s1, w1);
    Crashes(w1, u);
    var w2 := Next(w1, MachineStep(u, Abort)).value;
    Extend(first, log + [s1], w1, MachineStep(u, Abort), w2);
    var s := w2.machines[u].stored.(deleting := true);
    Vanishes(w2, u, s);
    var w3 := Next(w2, Outside(DeleteMachine(u))).value;
    Extend(first, log + [s1] + [MachineStep(u, Abort)], w2, Outside(DeleteMachine(u)), w3);
    var w4 := Next(w3, MachineStep(u, StartDelete(s))).value;
    var log3 := log + [s1] + [MachineStep(u, Abort)] + [Outside(DeleteMachine(u))];
    Extend(first, log3, w3, MachineStep(u, StartDelete(s)), w4);
    w' := Next(w4, MachineStep(u, RemoveFinalizer(true))).value;
    Extend(first, log3 + [MachineStep(u, StartDelete(s))], w4, MachineStep(u, RemoveFinalizer(true)), w');
    log' := log3 + [MachineStep(u, StartDelete(s))] + [MachineStep(u, RemoveFinalizer(true))];
  }

  lemma Vanishes(w: World, u: Uid, s: MachineRec)
    requires u in w.machines && w.machines[u].actor.pc.Idle? && !w.machines[u].gone && !w.machines[u].hist.released
    requires w.machines[u].stored.finalizer && w.machines[u].stored.resolvedHost.None?
    requires s == w.machines[u].stored.(deleting := true)
    ensures Next(w, Outside(DeleteMachine(u))).Some?
    ensures var w3 := Next(w, Outside(DeleteMachine(u))).value;
            && Next(w3, MachineStep(u, StartDelete(s))).Some?
            && var w4 := Next(w3, MachineStep(u, StartDelete(s))).value;
            && Next(w4, MachineStep(u, RemoveFinalizer(true))).Some?
            && var w' := Next(w4, MachineStep(u, RemoveFinalizer(true))).value;
            && w'.hosts == w.hosts && w'.machines.Keys == w.machines.Keys
            && (forall x :: x in w.machines && x != u ==> w'.machines[x] == w.machines[x])
            && w'.machines[u].gone && !w'.machines[u].hist.released && w'.machines[u].stored.resolvedHost.None?
  {
    hide ClaimMove, AdoptMove, UpgradeMove, Intended, AfterPatch, PatchMachine, HostEvent, HostNext;
  }

  /** A crash between the claim and the patch that records it orphans the claim: the machine
      resolves no host, its deletion releases none, and the host stays Claimed by a machine
      that is gone. */
  lemma {:induction false} CrashOrphansClaim() returns (first: World, log: seq<Step>, w: World)
    ensures Ran(first, log, w) && NothingStolen(first, log) && "h" in w.hosts && "a" in w.machines
    ensures Orphaned(w, "h") && Claimant(w.hosts["h"]) == Some("a") && StoredPhase(w, "h") == Phase.Claimed
    ensures w.machines["a"].gone && w.machines["a"].stored.resolvedHost.None?
  {
    hide Ran, Next, Unclaimed;
    first := OneHostTwoMachines();
    StartsFresh();
    log, w := Discovered(first, [], first, "h", PLAIN);
    log, w := Selects(first, log, w, "a", "h");
    log, w := LeavesOrphan(first, log, w, "a", "h");
    NeverReleased(first, log, w);
  }

  /** The machine, at work on its claimed host, crashes, and its next reconcile reads a version
      of the host older than the claim. */
  lemma {:induction false} GivesUpByStaleRead(first: World, log: seq<Step>, w: World, i: nat)
    returns (log': seq<Step>, w': World)
    requires Ran(first, log, w) && Stands(w, Actor(Preflight, FINALIZED, CLAIMED, "", false, false), CLAIMED)
    requires i < |w.hosts["h"].versions| && w.hosts["h"].versions[i].claimRef.None?
    ensures Ran(first, log', w') && w'.hosts == w.hosts
    ensures Stands(w', Actor(Select, CLAIMED, FINALIZED, "", false, false), FINALIZED)
    ensures w'.machines["a"].spec == w.machines["a"].spec
  {
    hide Ran, Next, AfterPatch, PatchMachine;
    var w1 := CrashesAt(w, w.machines["a"].actor, CLAIMED);
    log' := Goes(first, log, w, Abort, w1);
    w' := StartsOver(w1, w1.machines["a"].actor, CLAIMED);
    log' := Goes(first, log', w1, Start(CLAIMED, ""), w');
    var read := ReadHost(Version(i, w.hosts["h"].versions[i]));
    w1 := Answers(w', w'.machines["a"].actor, CLAIMED, read, ClearClaim, false);
    log' := Goes(first, log', w', read, w1);
    ClearingPatch(w1.machines["a"].spec);
    w' := CommitsOf(w1, w1.machines["a"].actor, CLAIMED, FINALIZED);
    log' := Goes(first, log', w1, Patch(FINALIZED), w');
  }

  lemma ClearingPatch(spec: MachineSpec)
    ensures PatchMachine(CLAIMED, CLAIMED, FINALIZED) == FINALIZED && PatchMachine(FINALIZED, CLAIMED, CLAIMED) == FINALIZED
    ensures AfterPatch(spec, ClearClaim, FINALIZED, "") == Select
    ensures AfterPatch(spec, Record("h", "1"), CLAIMED, "") == Preflight
  {
  }

  /** It selects the same host, by the same stale version, and claims it once more. */
  lemma {:induction false} ClaimsOnceMore(first: World, log: seq<Step>, w: World, i: nat)
    returns (log': seq<Step>, w': World)
    requires Ran(first, log, w) && Stands(w, Actor(Select, CLAIMED, FINALIZED, "", false, false), FINALIZED)
    requires w.machines["a"].spec == SPEC && i < |w.hosts["h"].versions| && Last(w.hosts["h"].versions).finalizer
    requires var r := w.hosts["h"].versions[i];
             r.phase == Available && r.probed && r.claimRef.None? && r.publicIP == "1"
    ensures Ran(first, log', w') && Stands(w', Actor(Record("h", "1"), CLAIMED, FINALIZED, "", false, false), FINALIZED)
  {
    hide Ran, Next;
    var v := w.hosts["h"].versions;
    var read := ReadHost(Version(i, v[i]));
    w' := Answers(w, w.machines["a"].actor, FINALIZED, read, CasGet("h", "1"), false);
    log' := Goes(first, log, w, read, w');
    var again := ReadHost(Current(w.hosts["h"]));
    var w1 := Answers(w', w'.machines["a"].actor, FINALIZED, again, CasPut("h", "1", |v| - 1, Last(v)), false);
    log' := Goes(first, log', w', again, w1);
    var rec := Last(v).(claimRef := Some("a"), phase := Phase.Claimed);
    w' := PutsAgain(w1);
    log' := Goes(first, log', w1, PutStatus(rec, true), w');
  }

  lemma PutsAgain(w: World) returns (w': World)
    requires "h" in w.hosts && w.hosts["h"].versions != [] && Last(w.hosts["h"].versions).finalizer
    requires var v := w.hosts["h"].versions;
             Stands(w, Actor(CasPut("h", "1", |v| - 1, Last(v)), CLAIMED, FINALIZED, "", false, false), FINALIZED)
    ensures var rec := Last(w.hosts["h"].versions).(claimRef := Some("a"), phase := Phase.Claimed);
            Next(w, MachineStep("a", PutStatus(rec, true))) == Some(w')
    ensures Stands(w', Actor(Record("h", "1"), CLAIMED, FINALIZED, "", false, false), FINALIZED)
  {
    hide AdoptMove, UpgradeMove, FinalMove, Intended, AfterPatch;
    var rec := Last(w.hosts["h"].versions).(claimRef := Some("a"), phase := Phase.Claimed);
    w' := Next(w, MachineStep("a", PutStatus(rec, true))).value;
  }

  lemma {:induction false} RecordsAgain() returns (first: World, log: seq<Step>, w: World)
    ensures Ran(first, log, w) && Stands(w, Actor(Record("h", "1"), CLAIMED, FINALIZED, "", false, false), FINALIZED)
  {
    hide Ran, Next, Stands;
    first := OneHostOneMachine();
    BeginsFresh();
    log, w := Discovered(first, [], first, "h", PLAIN);
    var v := w.hosts["h"].versions;
    log, w := ClaimedExactly(first, log, w);
    ClaimIsLast(v, w.hosts["h"].versions, Last(v).(claimRef := Some("a"), phase := Phase.Claimed));
    log, w := GivesUpByStaleRead(first, log, w, |v| - 1);
    log, w := ClaimsOnceMore(first, log, w, |v| - 1);
  }

  lemma ClaimIsLast(v: seq<HostRec>, x: seq<HostRec>, rec: HostRec)
    requires v != [] && x == v + [rec]
    ensures |v| - 1 < |x| && x[|v| - 1] == Last(v) && Last(x) == rec
  {
  }

  /** A host given up and claimed again in one reconcile is not recorded: the patch is computed
      against the snapshot of its start, which shows that host already. */
  lemma {:induction false} RecordIsSwallowed()
    returns (first: World, log: seq<Step>, w: World, step: Step, w': World)
    ensures Ran(first, log, w) && NothingStolen(first, log) && Next(w, step) == Some(w')
    ensures "a" in w.machines && w.machines["a"].actor.pc.Record? && step.MachineStep? && step.u == "a" && step.act.Patch?
    ensures !Orphaned(w, "h") && Orphaned(w', "h")
  {
    hide Ran, Next, NothingStolen, Orphans, PatchMachine, AfterPatch;
    first, log, w := RecordsAgain();
    NeverReleased(first, log, w);
    ClearingPatch(w.machines["a"].spec);
    w' := CommitsOf(w, w.machines["a"].actor, FINALIZED, CLAIMED);
    step := MachineStep("a", Patch(CLAIMED));
  }
}
