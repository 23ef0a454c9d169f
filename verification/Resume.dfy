/** An adoption cut short between the apply and the status patch is resumed by the next
    reconcile through the bundle match. */
module Resume {
  import opened Common
  import opened Records
  import opened MachineProtocol
  import opened World
  import opened HostHistory
  import opened Ownership
  import opened UpgradeRecord
  import opened Attempts
  import opened Reconciles
  import opened Runs
  import opened ClaimProperties

  // ---------- Whose bundle a config carries ----------

  /** A config applied by a machine of this world carries its cluster's bundle. */
  predicate BundleOk(h: Host, machines: map<Uid, Machine>) {
    Owner(h.config).Some? && Owner(h.config).value in machines ==>
      h.config.bundle == machines[Owner(h.config).value].spec.cluster
  }

  predicate Bundled(w: World) {
    forall name :: name in w.hosts ==> BundleOk(w.hosts[name], w.machines)
  }

  lemma BundleByAct(hosts: map<HostName, Host>, u: Uid, m: Machine, act: Act, name: HostName, machines: map<Uid, Machine>)
    requires Possible(hosts, m, act) && name in hosts && BundleOk(hosts[name], machines)
    requires u in machines && machines[u].spec == m.spec
    ensures name in HostsAfter(hosts, u, m, act) && BundleOk(HostsAfter(hosts, u, m, act)[name], machines)
  {
  }

  lemma BundleBySpecs(h: Host, machines: map<Uid, Machine>, machines': map<Uid, Machine>)
    requires BundleOk(h, machines) && machines'.Keys == machines.Keys
    requires forall u :: u in machines ==> machines'[u].spec == machines[u].spec
    ensures BundleOk(h, machines')
  {
  }

  lemma BundleUndisturbed(h: Host, h': Host, machines: map<Uid, Machine>)
    requires BundleOk(h, machines) && Undisturbed(h, h')
    ensures BundleOk(h', machines)
  {
  }

  lemma SameSpecs(w: World, step: Step)
    requires Next(w, step).Some?
    ensures Next(w, step).value.machines.Keys == w.machines.Keys
    ensures forall u :: u in w.machines ==> Next(w, step).value.machines[u].spec == w.machines[u].spec
  {
    hide Next, Move, Possible, HostsAfter, StoredAfter, HistoryAfter, SpecEdit;
    StepKeepsMachines(w, step);
    forall u | u in w.machines
      ensures Next(w, step).value.machines[u].spec == w.machines[u].spec
    {
      if step.MachineStep? && step.u == u {
        OwnStep(w, u, step.act);
      } else {
        OthersStep(w, step, u);
      }
    }
  }

  lemma BundledStep(w: World, step: Step)
    requires Recorded(w) && Bundled(w) && Next(w, step).Some?
    ensures Bundled(Next(w, step).value)
  {
    hide Next, Recorded, BundleOk, HostNext, HostEvent, Move, Possible, HostsAfter, Undisturbed;
    var w' := Next(w, step).value;
    SameSpecs(w, step);
    SameNames(w, step);
    forall name | name in w'.hosts
      ensures BundleOk(w'.hosts[name], w'.machines)
    {
      HostOkIn(w, name);
      match step {
        case MachineStep(u, act) =>
          OwnStep(w, u, act);
          BundleByAct(w.hosts, u, w.machines[u], act, name, w.machines);
        case HostStep(x, act) =>
          UnclaimedStep(w, step);
          if x == name {
            HostNextUndisturbed(w.hosts[x], act);
            BundleUndisturbed(w.hosts[x], w'.hosts[x], w.machines);
          }
        case Outside(event) =>
          UnclaimedStep(w, step);
          if w'.hosts != w.hosts && event.host == name {
            HostEventUndisturbed(w.hosts[name], event);
            BundleUndisturbed(w.hosts[name], w'.hosts[name], w.machines);
          }
      }
      BundleBySpecs(w'.hosts[name], w.machines, w'.machines);
    }
  }

  lemma InitBundled(w: World)
    requires Init(w)
    ensures Bundled(w)
  {
  }

  lemma {:induction false} BundledAlways(first: World, log: seq<Step>, w: World)
    requires Ran(first, log, w)
    ensures Bundled(w)
  {
    hide Init, Bundled, Next, Recorded;
    if log == [] {
      InitBundled(w);
    } else {
      var earlier := log[..|log| - 1];
      BundledAlways(first, earlier, Play(first, earlier).value);
      RecordedAlways(first, earlier);
      BundledStep(Play(first, earlier).value, Last(log));
    }
  }

  // ---------- One undisturbed reconcile ----------

  /** What the probes of the resuming reconcile are answered. */
  function Probes(spec: MachineSpec, seen: Seen): seq<Act> {
    [ReadHost(seen), ProbeMaintenance(false), FetchConfig(true), ProbeBundle(ClusterBundle, true)] +
    (if spec.worker then [CheckControlPlane(true)] else [])
  }

  /** Machine u is not adopted, but its host carries the config it applied. */
  predicate Interrupted(h: Host, spec: MachineSpec, l: MachineRec, u: Uid) {
    && !l.ready && l.upgrade != Failed
    && h.versions != [] && h.config == Configured(Some(u), spec.cluster)
    && Last(h.versions).claimRef == Some(u) && Last(h.versions).publicIP == l.resolvedIP
  }

  /** From Verify the reconcile reaches the authenticated apply. */
  lemma ReachesApply(w: World, u: Uid, a: Actor, name: HostName)
    requires u in w.machines && name in w.hosts && a.local.resolvedHost == Some(name)
    requires a.pc.Verify? && Interrupted(w.hosts[name], w.machines[u].spec, a.local, u)
    ensures var spec := w.machines[u].spec;
            exists b: Actor ::
              && b.pc == Apply(ClusterBundle) && b.base == a.base && b.local == a.local && b.hash == a.hash
              && Does(At(w, u, a), u, Probes(spec, Current(w.hosts[name]))) == Some(At(w, u, b))
  {
    hide Next, At, Does, Move, Probes;
    var spec, seen := w.machines[u].spec, Current(w.hosts[name]);
    var a1 := a.(pc := Preflight);
    var a2 := a1.(answered := false, pc := NeedConfig(ForPreflight));
    var a3 := a2.(pc := PreflightCluster);
    var a4 := a3.(pc := GatePc(spec, ClusterBundle));
    var b := a4.(pc := Apply(ClusterBundle), controlPlane := spec.worker || a4.controlPlane);
    ReadMoves(w, u, a, name);
    ProbeMoves(w, u, a1);
    GateMoves(w, u, a3, name);
    ChainProbes(w, u, a, a1, a2, a3, a4, b, seen);
  }

  lemma ReadMoves(w: World, u: Uid, a: Actor, name: HostName)
    requires u in w.machines && name in w.hosts && a.local.resolvedHost == Some(name)
    requires a.pc.Verify? && Interrupted(w.hosts[name], w.machines[u].spec, a.local, u)
    ensures Next(At(w, u, a), MachineStep(u, ReadHost(Current(w.hosts[name])))) == Some(At(w, u, a.(pc := Preflight)))
  {
    Moves(w, u, a, ReadHost(Current(w.hosts[name])), a.(pc := Preflight));
  }

  lemma ProbeMoves(w: World, u: Uid, a1: Actor)
    requires u in w.machines && a1.pc.Preflight?
    ensures var a2 := a1.(answered := false, pc := NeedConfig(ForPreflight));
            && Next(At(w, u, a1), MachineStep(u, ProbeMaintenance(false))) == Some(At(w, u, a2))
            && Next(At(w, u, a2), MachineStep(u, FetchConfig(true))) == Some(At(w, u, a2.(pc := PreflightCluster)))
  {
    hide Next;
    var a2 := a1.(answered := false, pc := NeedConfig(ForPreflight));
    Moves(w, u, a1, ProbeMaintenance(false), a2);
    Moves(w, u, a2, FetchConfig(true), a2.(pc := PreflightCluster));
  }

  lemma GateMoves(w: World, u: Uid, a3: Actor, name: HostName)
    requires u in w.machines && name in w.hosts && a3.local.resolvedHost == Some(name)
    requires a3.pc.PreflightCluster? && Interrupted(w.hosts[name], w.machines[u].spec, a3.local, u)
    ensures var spec := w.machines[u].spec;
            var a4 := a3.(pc := GatePc(spec, ClusterBundle));
            var b := a4.(pc := Apply(ClusterBundle), controlPlane := spec.worker || a4.controlPlane);
            && Next(At(w, u, a3), MachineStep(u, ProbeBundle(ClusterBundle, true))) == Some(At(w, u, a4))
            && (if spec.worker then Next(At(w, u, a4), MachineStep(u, CheckControlPlane(true))) == Some(At(w, u, b))
                else a4 == b)
  {
    hide Next;
    var a4 := a3.(pc := GatePc(w.machines[u].spec, ClusterBundle));
    Moves(w, u, a3, ProbeBundle(ClusterBundle, true), a4);
    if w.machines[u].spec.worker {
      Moves(w, u, a4, CheckControlPlane(true), a4.(pc := Apply(ClusterBundle), controlPlane := true));
    }
  }

  lemma ChainProbes(w: World, u: Uid, a: Actor, a1: Actor, a2: Actor, a3: Actor, a4: Actor, b: Actor, seen: Seen)
    requires u in w.machines
    requires Next(At(w, u, a), MachineStep(u, ReadHost(seen))) == Some(At(w, u, a1))
    requires Next(At(w, u, a1), MachineStep(u, ProbeMaintenance(false))) == Some(At(w, u, a2))
    requires Next(At(w, u, a2), MachineStep(u, FetchConfig(true))) == Some(At(w, u, a3))
    requires Next(At(w, u, a3), MachineStep(u, ProbeBundle(ClusterBundle, true))) == Some(At(w, u, a4))
    requires if w.machines[u].spec.worker then Next(At(w, u, a4), MachineStep(u, CheckControlPlane(true))) == Some(At(w, u, b))
             else a4 == b
    ensures Does(At(w, u, a), u, Probes(w.machines[u].spec, seen)) == Some(At(w, u, b))
  {
    hide Next, At;
    var more := if w.machines[u].spec.worker then [CheckControlPlane(true)] else [];
    var rest3 := [ProbeBundle(ClusterBundle, true)] + more;
    var rest2 := [FetchConfig(true)] + rest3;
    var rest1 := [ProbeMaintenance(false)] + rest2;
    assert Probes(w.machines[u].spec, seen) == [ReadHost(seen)] + rest1;
    DoesOne(At(w, u, a), u, ReadHost(seen), rest1);
    DoesOne(At(w, u, a1), u, ProbeMaintenance(false), rest2);
    DoesOne(At(w, u, a2), u, FetchConfig(true), rest3);
    DoesOne(At(w, u, a3), u, ProbeBundle(ClusterBundle, true), more);
    if w.machines[u].spec.worker {
      DoesOne(At(w, u, a4), u, CheckControlPlane(true), []);
    }
  }

  function Adopted(m: MachineRec, hash: string): MachineRec {
    m.(providerID := PROVIDER_PREFIX + m.resolvedIP, ready := true, configSHA := hash)
  }

  /** The apply changes nothing on the host, and the patch adopts. */
  lemma AppliesAgain(w: World, u: Uid, b: Actor, name: HostName, tag: string)
    requires u in w.machines && name in w.hosts && b.local.resolvedHost == Some(name)
    requires b.pc == Apply(ClusterBundle) && Interrupted(w.hosts[name], w.machines[u].spec, b.local, u)
    ensures Next(At(w, u, b), MachineStep(u, ApplyConfig(true, tag))) == Some(At(w, u, b.(pc := Adopt)))
  {
    var m := w.machines[u].(actor := b);
    var act := ApplyConfig(true, tag);
    assert HistoryAfter(w.hosts, m, act) == m.hist && StoredAfter(m, act) == m.stored;
    assert Applied(w.hosts[name], u, m.spec.cluster, tag) == w.hosts[name];
    assert HostsAfter(w.hosts, u, m, act) == w.hosts;
    assert At(w, u, b).machines[u := m.(actor := b.(pc := Adopt))] == At(w, u, b.(pc := Adopt)).machines;
  }

  lemma AdoptsAgain(w: World, u: Uid, b: Actor)
    requires u in w.machines && !w.machines[u].gone && b.pc.Adopt? && b.base == b.local
    ensures var step := MachineStep(u, Patch(Adopted(b.local, b.hash)));
            && Next(At(w, u, b), step).Some?
            && var w' := Next(At(w, u, b), step).value;
            && w'.hosts == w.hosts && u in w'.machines
            && w'.machines[u].stored == PatchMachine(w.machines[u].stored, b.base, Adopted(b.local, b.hash))
  {
    hide PatchMachine, AfterPatch;
  }

  lemma AdoptionStored(s: MachineRec, hash: string)
    ensures var s' := PatchMachine(s, s, Adopted(s, hash));
            s'.ready && s'.configSHA == hash && s'.providerID == PROVIDER_PREFIX + s.resolvedIP
  {
  }

  lemma InterruptedHost(w: World, u: Uid, name: HostName, l: MachineRec)
    requires Owned(w) && Bundled(w) && u in w.machines && name in w.hosts && Owner(w.hosts[name].config) == Some(u)
    requires w.machines[u].stored.resolvedHost == Some(name) && l == w.machines[u].stored.(finalizer := true)
    requires !l.ready && l.upgrade != Failed
    ensures Interrupted(w.hosts[name], w.machines[u].spec, l, u)
  {
    assert ConfigOk(w.hosts[name]) && BundleOk(w.hosts[name], w.machines);
    assert MachineOk(w.hosts, u, w.machines[u].stored, w.machines[u].actor);
    HostOkIn(w, name);
  }

  /** Started again, the reconcile of an adoption that was cut short between the apply and
      the status patch can verify its claim, find no maintenance mode but its own bundle,
      apply once more without touching the host's disk, and complete the adoption. */
  lemma {:induction false} CanResume(first: World, log: seq<Step>, w: World, u: Uid, name: HostName, hash: string, tag: string)
    requires Ran(first, log, w) && NothingStolen(first, log) && u in w.machines && name in w.hosts
    requires var m := w.machines[u];
             && m.actor.pc.Idle? && !m.gone && !m.stored.deleting
             && m.stored.resolvedHost == Some(name) && !m.stored.ready && m.stored.upgrade != Failed
    requires Owner(w.hosts[name].config) == Some(u) && w.hosts[name].versions != []
    ensures var s := w.machines[u].stored.(finalizer := true);
            var acts := [Start(s, hash)] + Probes(w.machines[u].spec, Current(w.hosts[name])) +
                        [ApplyConfig(true, tag), Patch(Adopted(s, hash))];
            && Does(w, u, acts).Some?
            && var w' := Does(w, u, acts).value;
            && w'.hosts == w.hosts && u in w'.machines
            && w'.machines[u].stored.ready && w'.machines[u].stored.configSHA == hash
            && w'.machines[u].stored.providerID == PROVIDER_PREFIX + s.resolvedIP
  {
    hide Init, Owned, Bundled, Next, Interrupted, Does, PatchMachine, Probes;
    OwnedAlways(first, log);
    BundledAlways(first, log, w);
    var s := w.machines[u].stored.(finalizer := true);
    var a := Actor(Verify, s, s, hash, false, false);
    var w1 := Started(w, u, hash);
    StartsAgain(w, u, hash);
    InterruptedHost(w, u, name, s);
    ReachesApply(w1, u, a, name);
    var b: Actor :| && b.pc == Apply(ClusterBundle) && b.base == s && b.local == s && b.hash == hash
                    && Does(At(w1, u, a), u, Probes(w1.machines[u].spec, Current(w1.hosts[name]))) == Some(At(w1, u, b));
    AppliesAgain(w1, u, b, name, tag);
    AdoptsAgain(w1, u, b.(pc := Adopt));
    AdoptionStored(s, hash);
    Finishes(w, w1, u, a, b, s, hash, tag, Probes(w.machines[u].spec, Current(w.hosts[name])));
  }

  lemma Finishes(w: World, w1: World, u: Uid, a: Actor, b: Actor, s: MachineRec, hash: string, tag: string, probes: seq<Act>)
    requires u in w1.machines && Next(w, MachineStep(u, Start(s, hash))) == Some(w1) && At(w1, u, a) == w1
    requires Does(w1, u, probes) == Some(At(w1, u, b))
    requires Next(At(w1, u, b), MachineStep(u, ApplyConfig(true, tag))) == Some(At(w1, u, b.(pc := Adopt)))
    requires Next(At(w1, u, b.(pc := Adopt)), MachineStep(u, Patch(Adopted(s, hash)))).Some?
    ensures Does(w, u, [Start(s, hash)] + probes + [ApplyConfig(true, tag), Patch(Adopted(s, hash))]) ==
            Next(At(w1, u, b.(pc := Adopt)), MachineStep(u, Patch(Adopted(s, hash))))
  {
    hide Next, At, Adopted;
    var patch, apply := Patch(Adopted(s, hash)), ApplyConfig(true, tag);
    assert [Start(s, hash)] + probes + [apply, patch] == [Start(s, hash)] + (probes + ([apply] + [patch]));
    DoesOne(w, u, Start(s, hash), probes + ([apply] + [patch]));
    DoesBoth(w1, u, probes, [apply] + [patch]);
    DoesOne(At(w1, u, b), u, apply, [patch]);
    DoesOne(At(w1, u, b.(pc := Adopt)), u, patch, []);
    assert [patch] + [] == [patch];
  }

  // ---------- Every undisturbed reconcile ----------

  /** An answer that nothing has kept from being current and complete. */
  predicate Helpful(h: Host, act: Act) {
    match act
    case Abort => false
    case ReadHost(seen) => h.versions != [] && seen == Current(h)
    case FetchConfig(found) => found
    case ProbeBundle(_, ok) => ok
    case CheckControlPlane(ready) => ready
    case ApplyConfig(ok, _) => ok
    case _ => true
  }

  /** The control points of the resuming reconcile, in order. */
  predicate Resuming(pc: Pc) {
    || pc.Verify? || pc.Preflight? || pc == NeedConfig(ForPreflight) || pc.PreflightCluster?
    || pc == Gate(ClusterBundle) || pc == Apply(ClusterBundle) || pc.Adopt?
  }

  function Left(pc: Pc, worker: bool): nat {
    var gate := if worker then 1 else 0;
    match pc
    case Verify => 6 + gate
    case Preflight => 5 + gate
    case NeedConfig(_) => 4 + gate
    case PreflightCluster => 3 + gate
    case Gate(_) => 3
    case Apply(_) => 2
    case Adopt => 1
    case _ => 0
  }

  /** The one helpful act there, and where it leads. */
  function Due(pc: Pc, seen: Seen, tag: string, self: MachineRec): Act {
    match pc
    case Verify => ReadHost(seen)
    case Preflight => ProbeMaintenance(false)
    case NeedConfig(_) => FetchConfig(true)
    case PreflightCluster => ProbeBundle(ClusterBundle, true)
    case Gate(_) => CheckControlPlane(true)
    case Apply(_) => ApplyConfig(true, tag)
    case _ => Patch(self)
  }

  function Following(pc: Pc, spec: MachineSpec): Pc {
    match pc
    case Verify => Preflight
    case Preflight => NeedConfig(ForPreflight)
    case NeedConfig(_) => PreflightCluster
    case PreflightCluster => GatePc(spec, ClusterBundle)
    case Gate(_) => Apply(ClusterBundle)
    case Apply(_) => Adopt
    case _ => Idle
  }

  /** What is ahead of it there. */
  function Ahead(pc: Pc, spec: MachineSpec, seen: Seen, tag: string, self: MachineRec): (acts: seq<Act>)
    ensures |acts| == Left(pc, spec.worker)
    decreases Left(pc, spec.worker)
  {
    if Left(pc, spec.worker) == 0 then []
    else [Due(pc, seen, tag, self)] + Ahead(Following(pc, spec), spec, seen, tag, self)
  }

  function TagOf(act: Act): string {
    if act.ApplyConfig? then act.tag else ""
  }

  lemma OnlyAct(hosts: map<HostName, Host>, u: Uid, m: Machine, act: Act, name: HostName)
    requires name in hosts && m.actor.local.resolvedHost == Some(name)
    requires hosts[name].versions != [] && hosts[name].config.Configured?
    requires Resuming(m.actor.pc) && Move(u, m.spec, m.actor, act).Some? && Possible(hosts, m, act) && Helpful(hosts[name], act)
    ensures act == Due(m.actor.pc, Current(hosts[name]), TagOf(act), Adopted(m.actor.local, m.actor.hash))
  {
    hide Move, Possible, Current, Adopted, Helpful;
    AnswerIs(hosts, m, act, name);
    KindOfAct(u, m.spec, m.actor, act);
  }

  /** The kind of act, by the control point. */
  lemma KindOfAct(u: Uid, spec: MachineSpec, a: Actor, act: Act)
    requires Resuming(a.pc) && Move(u, spec, a, act).Some? && !act.Abort?
    ensures match a.pc
            case Verify => act.ReadHost?
            case Preflight => act.ProbeMaintenance?
            case NeedConfig(_) => act.FetchConfig?
            case PreflightCluster => act.ProbeBundle? && act.auth == ClusterBundle
            case Gate(_) => act.CheckControlPlane?
            case Apply(_) => act.ApplyConfig?
            case _ => act == Patch(Adopted(a.local, a.hash))
  {
    hide AfterPatch, DecidePc, EnsurePc, LeastCandidate, AfterBoot, AfterConfig;
  }

  /** The answer, when it is helpful. */
  lemma AnswerIs(hosts: map<HostName, Host>, m: Machine, act: Act, name: HostName)
    requires name in hosts && hosts[name].versions != [] && m.actor.local.resolvedHost == Some(name)
    requires hosts[name].config.Configured? && Possible(hosts, m, act) && Helpful(hosts[name], act)
    ensures !act.Abort?
    ensures act.ReadHost? ==> act.seen == Current(hosts[name])
    ensures act.ProbeMaintenance? ==> !act.ok
    ensures act.FetchConfig? ==> act.found
    ensures act.ProbeBundle? ==> act.ok
    ensures act.CheckControlPlane? ==> act.ready
    ensures act.ApplyConfig? ==> act.ok
  {
  }

  lemma NextMove(u: Uid, spec: MachineSpec, a: Actor, act: Act)
    requires Resuming(a.pc) && !a.pc.Adopt? && !a.pc.Verify? && Move(u, spec, a, act).Some?
    requires exists seen, self :: act == Due(a.pc, seen, TagOf(act), self)
    ensures var b := Move(u, spec, a, act).value;
            b.pc == Following(a.pc, spec) && b.base == a.base && b.local == a.local && b.hash == a.hash
  {
    hide AfterPatch, DecidePc, EnsurePc, LeastCandidate, AfterBoot;
  }

  lemma NextPoint(w: World, u: Uid, a: Actor, act: Act, name: HostName) returns (b: Actor)
    requires u in w.machines && name in w.hosts && a.local.resolvedHost == Some(name)
    requires Interrupted(w.hosts[name], w.machines[u].spec, a.local, u) && Resuming(a.pc) && !a.pc.Adopt? && !a.pc.Verify?
    requires Next(At(w, u, a), MachineStep(u, act)).Some? && Helpful(w.hosts[name], act)
    ensures act == Due(a.pc, Current(w.hosts[name]), TagOf(act), Adopted(a.local, a.hash))
    ensures Next(At(w, u, a), MachineStep(u, act)) == Some(At(w, u, b))
    ensures b.base == a.base && b.local == a.local && b.hash == a.hash && b.pc == Following(a.pc, w.machines[u].spec)
  {
    hide Next, Move;
    OwnStep(At(w, u, a), u, act);
    OnlyAct(w.hosts, u, At(w, u, a).machines[u], act, name);
    b := Move(u, w.machines[u].spec, a, act).value;
    NextMove(u, w.machines[u].spec, a, act);
    if a.pc.Apply? {
      AppliesAgain(w, u, a, name, act.tag);
    } else {
      Moves(w, u, a, act, b);
    }
  }

  predicate Smooth(h: Host, acts: seq<Act>) {
    forall i :: 0 <= i < |acts| ==> Helpful(h, acts[i])
  }

  lemma DoesFirst(w: World, u: Uid, acts: seq<Act>)
    requires Does(w, u, acts).Some? && acts != []
    ensures Next(w, MachineStep(u, acts[0])).Some? && Does(Next(w, MachineStep(u, acts[0])).value, u, acts[1..]).Some?
    ensures acts == [acts[0]] + acts[1..]
  {
    hide Next;
  }

  /** Past the claim check, the helpful acts are those ahead, whatever they are. */
  lemma {:induction false} GoesAhead(w: World, u: Uid, a: Actor, name: HostName, acts: seq<Act>)
    returns (tag: string)
    requires u in w.machines && name in w.hosts && a.local.resolvedHost == Some(name)
    requires Interrupted(w.hosts[name], w.machines[u].spec, a.local, u) && Resuming(a.pc) && !a.pc.Verify?
    requires w.hosts[name].versions != []
    requires Does(At(w, u, a), u, acts).Some? && Smooth(w.hosts[name], acts)
    requires |acts| == Left(a.pc, w.machines[u].spec.worker)
    ensures acts == Ahead(a.pc, w.machines[u].spec, Current(w.hosts[name]), tag, Adopted(a.local, a.hash))
    decreases |acts|
  {
    hide Next, Interrupted, At, Does, Helpful, Adopted, Ahead, Due;
    var spec, seen, self := w.machines[u].spec, Current(w.hosts[name]), Adopted(a.local, a.hash);
    DoesFirst(At(w, u, a), u, acts);
    DueNow(w, u, a, acts[0], name);
    if a.pc.Adopt? {
      tag := "";
    } else {
      var b := NextPoint(w, u, a, acts[0], name);
      tag := GoesAhead(w, u, b, name, acts[1..]);
      if a.pc.Apply? {
        LastTag(spec, seen, tag, TagOf(acts[0]), self);
        tag := TagOf(acts[0]);
      }
    }
    AheadFrom(a.pc, spec, seen, tag, TagOf(acts[0]), self);
  }

  lemma AheadFrom(pc: Pc, spec: MachineSpec, seen: Seen, tag: string, here: string, self: MachineRec)
    requires Resuming(pc) && (pc.Apply? ==> here == tag)
    ensures Ahead(pc, spec, seen, tag, self) == [Due(pc, seen, here, self)] + Ahead(Following(pc, spec), spec, seen, tag, self)
  {
  }

  lemma LastTag(spec: MachineSpec, seen: Seen, tag: string, tag': string, self: MachineRec)
    ensures Ahead(Pc.Adopt, spec, seen, tag, self) == Ahead(Pc.Adopt, spec, seen, tag', self)
  {
  }

  lemma DueNow(w: World, u: Uid, a: Actor, act: Act, name: HostName)
    requires u in w.machines && name in w.hosts && a.local.resolvedHost == Some(name)
    requires Interrupted(w.hosts[name], w.machines[u].spec, a.local, u) && Resuming(a.pc)
    requires Next(At(w, u, a), MachineStep(u, act)).Some? && Helpful(w.hosts[name], act)
    ensures act == Due(a.pc, Current(w.hosts[name]), TagOf(act), Adopted(a.local, a.hash))
  {
    hide Next, Move, Due;
    OwnStep(At(w, u, a), u, act);
    OnlyAct(w.hosts, u, At(w, u, a).machines[u], act, name);
  }

  lemma StartsOnly(w: World, u: Uid, act: Act)
    requires u in w.machines && w.machines[u].actor.pc.Idle? && !w.machines[u].stored.deleting
    requires Next(w, MachineStep(u, act)).Some?
    ensures act.Start? && act.self == w.machines[u].stored.(finalizer := true)
  {
    hide AfterPatch, HostsAfter, StoredAfter, HistoryAfter;
  }

  lemma AsScripted(spec: MachineSpec, seen: Seen, tag: string, self: MachineRec)
    ensures [ReadHost(seen)] + Ahead(Preflight, spec, seen, tag, self) == Probes(spec, seen) + [ApplyConfig(true, tag), Patch(self)]
  {
    hide Ahead;
    AheadFrom(Preflight, spec, seen, tag, tag, self);
    AheadFrom(NeedConfig(ForPreflight), spec, seen, tag, tag, self);
    AheadFrom(PreflightCluster, spec, seen, tag, tag, self);
    AheadFrom(Gate(ClusterBundle), spec, seen, tag, tag, self);
    AheadFrom(Apply(ClusterBundle), spec, seen, tag, tag, self);
    AheadFrom(Pc.Adopt, spec, seen, tag, tag, self);
  }

  /** Every undisturbed reconcile of such a machine, whose reads are current and whose answers
      are not lost, adopts with its first acts, and leaves every host as it is. */
  lemma {:induction false} InterruptedAdoptionResumes(first: World, log: seq<Step>, w: World, u: Uid, name: HostName, acts: seq<Act>)
    requires Ran(first, log, w) && NothingStolen(first, log) && u in w.machines && name in w.hosts
    requires var m := w.machines[u];
             && m.actor.pc.Idle? && !m.gone && !m.stored.deleting
             && m.stored.resolvedHost == Some(name) && !m.stored.ready && m.stored.upgrade != Failed
    requires Owner(w.hosts[name].config) == Some(u) && w.hosts[name].versions != []
    requires Does(w, u, acts).Some? && Smooth(w.hosts[name], acts)
    requires |acts| == 1 + Left(Verify, w.machines[u].spec.worker)
    ensures var w' := Does(w, u, acts).value;
            && w'.hosts == w.hosts && u in w'.machines && acts[0].Start?
            && w'.machines[u].stored.ready && w'.machines[u].stored.configSHA == acts[0].hash
            && w'.machines[u].stored.providerID == PROVIDER_PREFIX + w.machines[u].stored.resolvedIP
  {
    hide Init, Owned, Bundled, Next, Interrupted, Does, NothingStolen, Ahead, Helpful, Probes;
    OwnedAlways(first, log);
    BundledAlways(first, log, w);
    var s := w.machines[u].stored.(finalizer := true);
    InterruptedHost(w, u, name, s);
    DoesFirst(w, u, acts);
    StartsOnly(w, u, acts[0]);
    var hash := acts[0].hash;
    StartsAgain(w, u, hash);
    var tag := Scripted(Started(w, u, hash), u, Actor(Verify, s, s, hash, false, false), name, acts[1..]);
    var probes := Probes(w.machines[u].spec, Current(w.hosts[name]));
    assert acts == [Start(s, hash)] + probes + [ApplyConfig(true, tag), Patch(Adopted(s, hash))];
    CanResume(first, log, w, u, name, hash, tag);
  }

  lemma Scripted(w: World, u: Uid, a: Actor, name: HostName, acts: seq<Act>) returns (tag: string)
    requires u in w.machines && name in w.hosts && a.local.resolvedHost == Some(name) && w.hosts[name].versions != []
    requires a.pc.Verify? && Interrupted(w.hosts[name], w.machines[u].spec, a.local, u)
    requires Does(At(w, u, a), u, acts).Some? && Smooth(w.hosts[name], acts)
    requires |acts| == Left(Verify, w.machines[u].spec.worker)
    ensures acts == Probes(w.machines[u].spec, Current(w.hosts[name])) + [ApplyConfig(true, tag), Patch(Adopted(a.local, a.hash))]
  {
    hide Next, Interrupted, Does, Ahead, Helpful, Probes, Adopted, At;
    var seen := Current(w.hosts[name]);
    DoesFirst(At(w, u, a), u, acts);
    DueNow(w, u, a, acts[0], name);
    ReadMoves(w, u, a, name);
    tag := GoesAhead(w, u, a.(pc := Preflight), name, acts[1..]);
    AsScripted(w.machines[u].spec, seen, tag, Adopted(a.local, a.hash));
  }

}
