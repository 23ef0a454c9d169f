/** Runs built step by step: how a run is extended, and the first stretches that every
    concrete run has in common. */
module Runs {
  import opened Common
  import opened Records
  import opened Discovery
  import opened HostProtocol
  import opened MachineProtocol
  import opened World
  import opened HostHistory
  import opened Ownership
  import opened Reconciles
  import opened Lifecycle

  // ---------- Performing acts ----------

  /** Machine u's reconciler performs these acts, one after the other. */
  function Does(w: World, u: Uid, acts: seq<Act>): Option<World>
    decreases |acts|
  {
    if acts == [] then Some(w)
    else
      var w1 := Next(w, MachineStep(u, acts[0]));
      if w1.Some? then Does(w1.value, u, acts[1..]) else None
  }

  lemma DoesOne(w: World, u: Uid, act: Act, rest: seq<Act>)
    requires Next(w, MachineStep(u, act)).Some?
    ensures Does(w, u, [act] + rest) == Does(Next(w, MachineStep(u, act)).value, u, rest)
  {
    hide Next;
    assert ([act] + rest)[1..] == rest;
  }

  lemma {:induction false} DoesBoth(w: World, u: Uid, acts: seq<Act>, rest: seq<Act>)
    requires Does(w, u, acts).Some?
    ensures Does(w, u, acts + rest) == Does(Does(w, u, acts).value, u, rest)
    decreases |acts|
  {
    hide Next;
    if acts == [] {
      assert acts + rest == rest;
    } else {
      assert acts + rest == [acts[0]] + (acts[1..] + rest);
      DoesOne(w, u, acts[0], acts[1..] + rest);
      DoesBoth(Next(w, MachineStep(u, acts[0])).value, u, acts[1..], rest);
    }
  }

  /** The state of machine u's reconcile, everything else as in w. */
  function At(w: World, u: Uid, a: Actor): World
    requires u in w.machines
  {
    w.(machines := w.machines[u := w.machines[u].(actor := a)])
  }

  /** An act that only moves the reconcile. */
  lemma Moves(w: World, u: Uid, a: Actor, act: Act, a': Actor)
    requires u in w.machines && Move(u, w.machines[u].spec, a, act) == Some(a')
    requires Possible(w.hosts, w.machines[u].(actor := a), act)
    requires act.ReadHost? || act.ListHosts? || act.FetchConfig? || act.ProbeMaintenance? || act.ProbeBundle? ||
             act.CheckControlPlane? || (act.ReadBoot? && !act.live.NoBoot?)
    ensures Next(At(w, u, a), MachineStep(u, act)) == Some(At(w, u, a'))
  {
    hide Move, Possible;
    var m := w.machines[u].(actor := a);
    assert HistoryAfter(w.hosts, m, act) == m.hist && StoredAfter(m, act) == m.stored;
    assert HostsAfter(w.hosts, u, m, act) == w.hosts;
    assert At(w, u, a).machines[u := m.(actor := a')] == At(w, u, a').machines;
  }

  lemma MovesTo(w: World, u: Uid, act: Act, a': Actor)
    requires u in w.machines && Move(u, w.machines[u].spec, w.machines[u].actor, act) == Some(a')
    requires Possible(w.hosts, w.machines[u], act)
    requires act.ReadHost? || act.ListHosts? || act.FetchConfig? || act.ProbeMaintenance? || act.ProbeBundle? ||
             act.CheckControlPlane? || (act.ReadBoot? && !act.live.NoBoot?)
    ensures Next(w, MachineStep(u, act)) == Some(At(w, u, a'))
  {
    hide Next, Move, Possible;
    var m := w.machines[u];
    assert m.(actor := m.actor) == m;
    assert w.machines[u := m] == w.machines;
    Moves(w, u, m.actor, act, a');
  }

  /** The current version, as a read of it returns it. */
  function Current(h: Host): Seen
    requires h.versions != []
  {
    Version(|h.versions| - 1, Last(h.versions))
  }

  /** The world once machine u, which has resolved a host, starts a reconcile. */
  function Started(w: World, u: Uid, hash: string): World
    requires u in w.machines
  {
    var m := w.machines[u];
    var s := m.stored.(finalizer := true);
    w.(machines := w.machines[u := m.(stored := s, actor := Actor(Verify, s, s, hash, false, false),
                                     hist := m.hist.(started := m.hist.started + 1))])
  }

  lemma StartsAgain(w: World, u: Uid, hash: string)
    requires u in w.machines && w.machines[u].stored.resolvedHost.Some?
    requires w.machines[u].actor.pc.Idle? && !w.machines[u].gone && !w.machines[u].stored.deleting
    ensures Next(w, MachineStep(u, Start(w.machines[u].stored.(finalizer := true), hash))) == Some(Started(w, u, hash))
    ensures var w1 := Started(w, u, hash); At(w1, u, w1.machines[u].actor) == w1
  {
    var w1 := Started(w, u, hash);
    assert w1.machines[u := w1.machines[u]] == w1.machines;
  }

  lemma DoesNothing(w: World, u: Uid)
    ensures Does(w, u, []) == Some(w)
  {
  }

  lemma {:induction false} Extend(first: World, log: seq<Step>, w: World, step: Step, w': World)
    requires Ran(first, log, w) && Next(w, step) == Some(w')
    ensures Ran(first, log + [step], w')
  {
    hide Init, Next;
    assert (log + [step])[..|log|] == log && Last(log + [step]) == step;
  }

  function AsSteps(u: Uid, acts: seq<Act>): seq<Step>
    decreases |acts|
  {
    if acts == [] then [] else [MachineStep(u, acts[0])] + AsSteps(u, acts[1..])
  }

  lemma {:induction false} ExtendDoes(first: World, log: seq<Step>, w: World, u: Uid, acts: seq<Act>)
    requires Ran(first, log, w) && Does(w, u, acts).Some?
    ensures Ran(first, log + AsSteps(u, acts), Does(w, u, acts).value)
    decreases |acts|
  {
    hide Ran, Next;
    if acts == [] {
      assert log + AsSteps(u, acts) == log;
    } else {
      var step, rest := MachineStep(u, acts[0]), acts[1..];
      Extend(first, log, w, step, Next(w, step).value);
      ExtendDoes(first, log + [step], Next(w, step).value, u, rest);
      assert AsSteps(u, acts) == [step] + AsSteps(u, rest);
      assert log + ([step] + AsSteps(u, rest)) == (log + [step]) + AsSteps(u, rest);
    }
  }

  // ---------- Runs in which nothing is released ----------

  /** The steps of a host's reconciler. */
  function AsHostSteps(name: HostName, acts: seq<HostAct>): seq<Step>
    decreases |acts|
  {
    if acts == [] then [] else [HostStep(name, acts[0])] + AsHostSteps(name, acts[1..])
  }

  lemma {:induction false} ExtendHostDoes(first: World, log: seq<Step>, w: World, name: HostName, acts: seq<HostAct>)
    requires Ran(first, log, w) && name in w.hosts && HostDoes(w.hosts[name], acts).Some?
    ensures Ran(first, log + AsHostSteps(name, acts), w.(hosts := w.hosts[name := HostDoes(w.hosts[name], acts).value]))
    decreases |acts|
  {
    hide Ran, HostNext;
    if acts == [] {
      assert log + AsHostSteps(name, acts) == log;
      assert w.hosts[name := w.hosts[name]] == w.hosts;
    } else {
      var step, rest := HostStep(name, acts[0]), acts[1..];
      var w1 := Next(w, step).value;
      Extend(first, log, w, step, w1);
      ExtendHostDoes(first, log + [step], w1, name, rest);
      assert AsHostSteps(name, acts) == [step] + AsHostSteps(name, rest);
      assert log + ([step] + AsHostSteps(name, rest)) == (log + [step]) + AsHostSteps(name, rest);
      assert w.hosts[name := w1.hosts[name]][name := HostDoes(w1.hosts[name], rest).value] ==
             w.hosts[name := HostDoes(w.hosts[name], acts).value];
    }
  }

  predicate Claimable(h: Host) {
    && h.versions != [] && !h.gone
    && var r := Last(h.versions);
    && r.phase == Available && r.probed && r.claimRef.None? && r.finalizer && !r.deleting
  }

  /** Only this host has changed. */
  predicate OnlyHost(w: World, w': World, name: HostName) {
    && w'.machines == w.machines && w'.hosts.Keys == w.hosts.Keys
    && forall x :: x in w.hosts && x != name ==> w'.hosts[x] == w.hosts[x]
  }

  /** Only the record of this host, not the machine behind it. */
  predicate SameMachine(h: Host, h': Host) {
    && h'.config == h.config && h'.boot == h.boot && h'.running == h.running && h'.installed == h.installed
    && h'.image == h.image && h'.installBoot == h.installBoot && h'.threshold == h.threshold
  }

  /** A new host in maintenance is discovered. */
  lemma {:induction false} Discovered(first: World, log: seq<Step>, w: World, name: HostName, d: DiscoveryResult)
    returns (log': seq<Step>, w': World)
    requires Ran(first, log, w) && name in w.hosts && FreshHost(w.hosts[name]) && w.hosts[name].config.Empty?
    ensures Ran(first, log', w') && OnlyHost(w, w', name) && SameMachine(w.hosts[name], w'.hosts[name])
    ensures Claimable(w'.hosts[name]) && w'.hosts[name].actor.pc.HostIdle?
    ensures Last(w'.hosts[name].versions).publicIP == w.hosts[name].versions[0].publicIP
    ensures Last(w'.hosts[name].versions).talosVersion == d.talosVersion
    ensures Last(w'.hosts[name].versions).failureDomain == w.hosts[name].versions[0].failureDomain
    ensures w.hosts[name].versions <= w'.hosts[name].versions && Last(w'.hosts[name].versions).failures == 0
  {
    hide Init, WithLabels;
    var v0 := w.hosts[name].versions[0];
    var s1 := HostStep(name, ReadSelf(0, v0));
    var w1 := Next(w, s1).value;
    Extend(first, log, w, s1, w1);
    var s2 := HostStep(name, EnsureFinalizer);
    var w2 := Next(w1, s2).value;
    Extend(first, log + [s1], w1, s2, w2);
    log', w' := DiscoveredFinal(first, log + [s1] + [s2], w2, name, d);
  }

  lemma {:induction false} DiscoveredFinal(first: World, log: seq<Step>, w: World, name: HostName, d: DiscoveryResult)
    returns (log': seq<Step>, w': World)
    requires Ran(first, log, w) && name in w.hosts && w.hosts[name].config.Empty?
    requires var h := w.hosts[name];
             && h.versions != [] && !h.gone && h.actor.pc.Discover? && h.actor.base == Last(h.versions)
             && h.actor.base.phase == Unset && h.actor.base.claimRef.None? && !h.actor.base.probed
             && h.actor.base.finalizer && !h.actor.base.deleting
    ensures Ran(first, log', w') && OnlyHost(w, w', name) && SameMachine(w.hosts[name], w'.hosts[name])
    ensures Claimable(w'.hosts[name]) && w'.hosts[name].actor.pc.HostIdle?
    ensures Last(w'.hosts[name].versions).publicIP == Last(w.hosts[name].versions).publicIP
    ensures Last(w'.hosts[name].versions).talosVersion == d.talosVersion
    ensures Last(w'.hosts[name].versions).failureDomain == Last(w.hosts[name].versions).failureDomain
    ensures w.hosts[name].versions <= w'.hosts[name].versions && Last(w'.hosts[name].versions).failures == 0
  {
    hide Ran, Next, HostNext, HostDoes, Reported;
    var h := w.hosts[name];
    var patch := PatchSelf(Reported(Last(h.versions), Found(d), h.threshold));
    var acts := [RunDiscovery(Some(d))] + [patch];
    var h1 := Discovers(h, Some(d), [patch]);
    PatchStores(h1, Found(d));
    FoundRecord(Last(h.versions), d, h.threshold);
    ExtendHostDoes(first, log, w, name, acts);
    log' := log + AsHostSteps(name, acts);
    w' := w.(hosts := w.hosts[name := HostDoes(h, acts).value]);
  }

  lemma FoundRecord(base: HostRec, d: DiscoveryResult, threshold: nat)
    requires base.claimRef.None? && base.finalizer && !base.deleting
    ensures var r := Reported(base, Found(d), threshold);
            && r.phase == Available && r.probed && r.claimRef.None? && r.finalizer && !r.deleting && r.failures == 0
            && r.publicIP == base.publicIP && r.talosVersion == d.talosVersion && r.failureDomain == base.failureDomain
  {
    hide DiscoveryLabels;
  }

  /** A machine that has not claimed anything and wants this host by name. */
  predicate Unclaimed(m: Machine, name: HostName) {
    && m.actor.pc.Idle? && !m.gone && !m.hist.released && m.spec.hostRef == Some(name)
    && var s := m.stored;
    && !s.deleting && s.resolvedHost.None? && !s.ready && s.upgrade == NoUpgrade
  }

  /** It has claimed the host and is about to probe it. */
  predicate Preflights(m: Machine, name: HostName, ip: string) {
    && m.actor.pc.Preflight? && !m.gone && !m.hist.released
    && m.stored.resolvedHost == Some(name) && m.stored.finalizer && !m.stored.deleting
    && m.actor.local.resolvedHost == Some(name) && !m.actor.local.ready
  }

  lemma {:induction false} Selects(first: World, log: seq<Step>, w: World, u: Uid, name: HostName)
    returns (log': seq<Step>, w': World)
    requires Ran(first, log, w) && u in w.machines && Unclaimed(w.machines[u], name)
    requires name in w.hosts && Claimable(w.hosts[name])
    ensures Ran(first, log', w') && w'.hosts == w.hosts && w'.machines.Keys == w.machines.Keys
    ensures forall x :: x in w.machines && x != u ==> w'.machines[x] == w.machines[x]
    ensures var h, m, m', s := w.hosts[name], w.machines[u], w'.machines[u], w.machines[u].stored.(finalizer := true);
            && m'.actor == Actor(CasPut(name, Last(h.versions).publicIP, |h.versions| - 1, Last(h.versions)),
                                 s, s, "", false, false)
            && m' == m.(actor := m'.actor, stored := s, hist := m'.hist) && !m'.hist.released
  {
    hide Init;
    var h, s := w.hosts[name], w.machines[u].stored.(finalizer := true);
    var seen := ReadHost(Current(h));
    var a1 := Actor(Select, s, s, "", false, false);
    var a2 := a1.(pc := CasGet(name, Last(h.versions).publicIP));
    var a3 := a1.(pc := CasPut(name, Last(h.versions).publicIP, |h.versions| - 1, Last(h.versions)));
    var w1 := Next(w, MachineStep(u, Start(s, ""))).value;
    Extend(first, log, w, MachineStep(u, Start(s, "")), w1);
    assert At(w1, u, a1).machines == w1.machines;
    Moves(w1, u, a1, seen, a2);
    Extend(first, log + [MachineStep(u, Start(s, ""))], w1, MachineStep(u, seen), At(w1, u, a2));
    Moves(w1, u, a2, seen, a3);
    w' := At(w1, u, a3);
    Extend(first, log + [MachineStep(u, Start(s, ""))] + [MachineStep(u, seen)], At(w1, u, a2), MachineStep(u, seen), w');
    log' := log + [MachineStep(u, Start(s, ""))] + [MachineStep(u, seen)] + [MachineStep(u, seen)];
  }

  lemma {:induction false} Claims(first: World, log: seq<Step>, w: World, u: Uid, name: HostName)
    returns (log': seq<Step>, w': World)
    requires Ran(first, log, w) && u in w.machines && Unclaimed(w.machines[u], name)
    requires name in w.hosts && Claimable(w.hosts[name])
    ensures Ran(first, log', w') && w'.machines.Keys == w.machines.Keys && name in w'.hosts
    ensures forall x :: x in w.machines && x != u ==> w'.machines[x] == w.machines[x]
    ensures w'.machines[u].spec == w.machines[u].spec && Preflights(w'.machines[u], name, Last(w.hosts[name].versions).publicIP)
    ensures w'.hosts[name] ==
            Store(w.hosts[name], Last(w.hosts[name].versions).(claimRef := Some(u), phase := Phase.Claimed))
  {
    var w2;
    log', w2 := Selects(first, log, w, u, name);
    log', w' := Commits(first, log', w2, u, name);
  }

  lemma {:induction false} Commits(first: World, log: seq<Step>, w: World, u: Uid, name: HostName)
    returns (log': seq<Step>, w': World)
    requires Ran(first, log, w) && u in w.machines && name in w.hosts && Claimable(w.hosts[name])
    requires var m, h := w.machines[u], w.hosts[name];
             && m.actor.pc == CasPut(name, Last(h.versions).publicIP, |h.versions| - 1, Last(h.versions))
             && m.actor.base == m.stored && m.actor.local == m.stored && !m.gone && !m.hist.released && m.stored.finalizer
             && !m.stored.deleting && m.stored.resolvedHost.None? && !m.stored.ready && m.stored.upgrade == NoUpgrade
    ensures Ran(first, log', w') && w'.machines.Keys == w.machines.Keys && name in w'.hosts
    ensures forall x :: x in w.machines && x != u ==> w'.machines[x] == w.machines[x]
    ensures w'.machines[u].spec == w.machines[u].spec && Preflights(w'.machines[u], name, Last(w.hosts[name].versions).publicIP)
    ensures w'.hosts[name] ==
            Store(w.hosts[name], Last(w.hosts[name].versions).(claimRef := Some(u), phase := Phase.Claimed))
  {
    hide Ran, Next;
    var ip := Last(w.hosts[name].versions).publicIP;
    var s1 := MachineStep(u, PutStatus(Last(w.hosts[name].versions).(claimRef := Some(u), phase := Phase.Claimed), true));
    var s2 := MachineStep(u, Patch(w.machines[u].stored.(resolvedHost := Some(name), resolvedIP := ip)));
    Wins(w, u, name);
    var w1 := Next(w, s1).value;
    RecordsClaim(w1, u, name, ip);
    w' := Next(w1, s2).value;
    Extend(first, log, w, s1, w1);
    Extend(first, log + [s1], w1, s2, w');
    log' := log + [s1] + [s2];
  }

  lemma Wins(w: World, u: Uid, name: HostName)
    requires u in w.machines && name in w.hosts && Claimable(w.hosts[name])
    requires var h := w.hosts[name];
             w.machines[u].actor.pc == CasPut(name, Last(h.versions).publicIP, |h.versions| - 1, Last(h.versions))
    ensures var h, m := w.hosts[name], w.machines[u];
            var rec := Last(h.versions).(claimRef := Some(u), phase := Phase.Claimed);
            Next(w, MachineStep(u, PutStatus(rec, true))) ==
            Some(World(w.hosts[name := Store(h, rec)],
                       w.machines[u := m.(actor := m.actor.(pc := Record(name, Last(h.versions).publicIP)))]))
  {
  }

  lemma RecordsClaim(w: World, u: Uid, name: HostName, ip: string)
    requires u in w.machines && w.machines[u].actor.pc == Record(name, ip) && !w.machines[u].gone
    requires var m := w.machines[u];
             && m.actor.base == m.stored && m.actor.local == m.stored && !m.hist.released && m.stored.finalizer
             && !m.stored.deleting && m.stored.resolvedHost.None? && !m.stored.ready && m.stored.upgrade == NoUpgrade
    ensures var step := MachineStep(u, Patch(w.machines[u].stored.(resolvedHost := Some(name), resolvedIP := ip)));
            && Next(w, step).Some?
            && var w' := Next(w, step).value;
            && w'.hosts == w.hosts && w'.machines.Keys == w.machines.Keys
            && (forall x :: x in w.machines && x != u ==> w'.machines[x] == w.machines[x])
            && w'.machines[u].spec == w.machines[u].spec && Preflights(w'.machines[u], name, ip)
  {
  }

  /** A discovery that finds nothing worth a label. */
  const PLAIN := DiscoveryResult("", "", "", Hardware(0, 0, [], None))

  const NEW_HOST := HostRec("1", "", map[], false, false, Unset, None, false, false, 0, "", "", "", None)

  const IDLE_HOST := HostActor(HostIdle, 0, NEW_HOST, false)

  const NEW_MACHINE := MachineRec(1, "", "", false, false, None, "", false, "", false, "", NoUpgrade, 0, 0, "", 0)

  const IDLE_MACHINE := Actor(Idle, NEW_MACHINE, NEW_MACHINE, "", false, false)

  const NO_HISTORY := History(0, false, [], None, false, 0, None, None)

  ghost predicate NoneReleased(w: World) {
    forall u :: u in w.machines ==> !w.machines[u].hist.released
  }

  lemma ReleasedStays(w: World, step: Step, w': World)
    requires Next(w, step) == Some(w') && NoneReleased(w')
    ensures NoneReleased(w) && !Steals(w, step)
  {
    hide Next, Move, Possible, HostsAfter, StoredAfter, HistoryAfter, SpecEdit;
    StepKeepsMachines(w, step);
    forall u | u in w.machines
      ensures !w.machines[u].hist.released
    {
      if step.MachineStep? && step.u == u {
        OwnStep(w, u, step.act);
        HistoryReleased(w.hosts, w.machines[u], step.act);
      } else {
        OthersStep(w, step, u);
      }
    }
    if Steals(w, step) {
      OwnStep(w, step.u, step.act);
      HistoryReleased(w.hosts, w.machines[step.u], step.act);
    }
  }

  lemma {:induction false} NeverReleased(first: World, log: seq<Step>, w: World)
    requires Ran(first, log, w) && NoneReleased(w)
    ensures NothingStolen(first, log)
  {
    hide Init, Next, NoneReleased, Steals;
    if log != [] {
      var earlier := log[..|log| - 1];
      ReleasedStays(Play(first, earlier).value, Last(log), w);
      NeverReleased(first, earlier, Play(first, earlier).value);
    }
  }

  lemma Crashes(w: World, u: Uid)
    requires u in w.machines && !w.machines[u].actor.pc.Idle?
    ensures var m := w.machines[u];
            Next(w, MachineStep(u, Abort)) == Some(w.(machines := w.machines[u := m.(actor := m.actor.(pc := Idle))]))
  {
  }
}
