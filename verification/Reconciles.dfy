/** What must have been answered earlier in the same reconcile, in every run. Here the
    evidence is the log itself, not what an actor remembers. */
module Reconciles {
  import opened Common
  import opened Records
  import opened HostProtocol
  import opened MachineProtocol
  import opened World
  import opened HostHistory

  predicate Ran(first: World, log: seq<Step>, w: World) {
    Init(first) && Play(first, log) == Some(w)
  }

  /** The acts of machine u's last reconcile, so far. */
  function Acts(log: seq<Step>, u: Uid): seq<Act> {
    if log == [] then []
    else
      var last := Last(log);
      if !(last.MachineStep? && last.u == u) then Acts(log[..|log| - 1], u)
      else if last.act.Start? || last.act.StartDelete? then [last.act]
      else Acts(log[..|log| - 1], u) + [last.act]
  }

  /** The acts of the host's last reconcile, so far. */
  function HostActs(log: seq<Step>, name: HostName): seq<HostAct> {
    if log == [] then []
    else
      var last := Last(log);
      if !(last.HostStep? && last.host == name) then HostActs(log[..|log| - 1], name)
      else if last.hostAct.ReadSelf? then [last.hostAct]
      else HostActs(log[..|log| - 1], name) + [last.hostAct]
  }

  /** Every generation at which machine u called upgradeMachine: the generation of the
      record its reconcile works on. */
  function Installs(first: World, log: seq<Step>, u: Uid): seq<nat> {
    if log == [] then []
    else
      var before := Play(first, log[..|log| - 1]);
      var earlier := Installs(first, log[..|log| - 1], u);
      if Last(log).MachineStep? && Last(log).u == u && Last(log).act.Install? && before.Some? && u in before.value.machines then
        earlier + [before.value.machines[u].actor.local.generation]
      else earlier
  }

  /** Polls of the upgrade in flight that have failed since it was written ahead. */
  function FailedPolls(first: World, log: seq<Step>, u: Uid): nat {
    if log == [] then 0
    else
      var before := Play(first, log[..|log| - 1]);
      var earlier := FailedPolls(first, log[..|log| - 1], u);
      if !(Last(log).MachineStep? && Last(log).u == u && before.Some? && u in before.value.machines) then earlier
      else
        var act, pc := Last(log).act, before.value.machines[u].actor.pc;
        if act.Patch? && pc.WriteAhead? then 0
        else if act == ReadBoot(NoBoot) || (act == ReadVersion(NoVersion) && pc.Fallback?) then earlier + 1
        else earlier
  }

  /** Failed polls that were patched in a row: since the upgrade was written ahead, and since
      the last version answer with the old tag. */
  function CountedPolls(first: World, log: seq<Step>, u: Uid): nat {
    if log == [] then 0
    else
      var before := Play(first, log[..|log| - 1]);
      var earlier := CountedPolls(first, log[..|log| - 1], u);
      if !(Last(log).MachineStep? && Last(log).u == u && before.Some? && u in before.value.machines) then earlier
      else
        var act, pc := Last(log).act, before.value.machines[u].actor.pc;
        if !act.Patch? then earlier
        else if pc.WriteAhead? || pc.HoldTag? then 0
        else if pc == CountFailure(true) then earlier + 1
        else earlier
  }

  /** The host on which machine u last wrote an upgrade ahead. */
  function IssuedOn(first: World, log: seq<Step>, u: Uid): HostName {
    if log == [] then ""
    else
      var before := Play(first, log[..|log| - 1]);
      var earlier := IssuedOn(first, log[..|log| - 1], u);
      if Last(log).MachineStep? && Last(log).u == u && Last(log).act.Patch? && before.Some? && u in before.value.machines &&
         before.value.machines[u].actor.pc.WriteAhead?
      then Target(before.value.machines[u].actor)
      else earlier
  }

  /** The host whose claim machine u recorded last. */
  function LastRecorded(first: World, log: seq<Step>, u: Uid): HostName {
    if log == [] then ""
    else
      var before := Play(first, log[..|log| - 1]);
      var earlier := LastRecorded(first, log[..|log| - 1], u);
      if Last(log).MachineStep? && Last(log).u == u && Last(log).act.Patch? && before.Some? && u in before.value.machines &&
         before.value.machines[u].actor.pc.Record?
      then before.value.machines[u].actor.pc.host
      else earlier
  }

  // ---------- The machine reconciler ----------

  predicate Maintained(acts: seq<Act>) {
    ProbeMaintenance(true) in acts
  }

  /** Neither maintenance nor this cluster's bundle was answered. */
  predicate Refused(acts: seq<Act>) {
    ProbeMaintenance(false) in acts && ProbeBundle(ClusterBundle, false) in acts
  }

  /** How the apply of a machine that is not adopted yet was authorised. */
  predicate Authorised(acts: seq<Act>, auth: Auth) {
    match auth
    case Insecure => Maintained(acts)
    case ClusterBundle => ProbeBundle(ClusterBundle, true) in acts
    case ReferencedBundle => Refused(acts) && ProbeBundle(ReferencedBundle, false) in acts
  }

  predicate NoReset(acts: seq<Act>) {
    Reset(true) !in acts && Reset(false) !in acts
  }

  predicate Justified(acts: seq<Act>, spec: MachineSpec, a: Actor) {
    match a.pc
    case NeedConfig(need) =>
      && (need.ForReapply? ==> a.local.ready)
      && (need.ForPreflight? ==> ProbeMaintenance(false) in acts)
      && (need.ForReference? ==> Refused(acts))
    case PreflightCluster => ProbeMaintenance(false) in acts
    case PreflightReference => Refused(acts)
    case Gate(auth) => Authorised(acts, auth)
    case Apply(auth) =>
      if a.local.ready && auth.ClusterBundle? then true
      else Authorised(acts, auth) && (spec.worker ==> CheckControlPlane(true) in acts)
    case ReleaseGet => NoReset(acts)
    case ReleaseProbe(_, _) => NoReset(acts)
    case ReleasePut(_, _, phase) => if phase == Available then Maintained(acts) && NoReset(acts) else Reset(true) in acts
    case FailClear => Reset(true) in acts
    case LinkSave => LinkNode(true) in acts
    case _ => true
  }

  lemma MoreActs(acts: seq<Act>, act: Act, spec: MachineSpec, a: Actor)
    requires Justified(acts, spec, a) && !act.Reset?
    ensures Justified(acts + [act], spec, a)
  {
  }

  lemma JustifiedPatch(acts: seq<Act>, spec: MachineSpec, pc: Pc, m: MachineRec, a: Actor)
    requires a.local == m && a.pc == AfterPatch(spec, pc, m, a.hash)
    ensures Justified(acts, spec, a)
  {
  }

  lemma JustifiedAdopt(acts: seq<Act>, spec: MachineSpec, a: Actor, act: Act)
    requires Justified(acts, spec, a) && AdoptMove(spec, a, act).Some?
    ensures Justified(acts + [act], spec, AdoptMove(spec, a, act).value)
  {
    var acts' := acts + [act];
    assert act in acts';
    assert forall x :: x in acts ==> x in acts';
  }

  lemma JustifiedClaim(acts: seq<Act>, u: Uid, spec: MachineSpec, a: Actor, act: Act)
    requires Justified(acts, spec, a) && ClaimMove(u, spec, a, act).Some?
    ensures Justified(acts, spec, ClaimMove(u, spec, a, act).value)
  {
  }

  lemma JustifiedRest(acts: seq<Act>, spec: MachineSpec, a: Actor, act: Act)
    ensures UpgradeMove(a, act).Some? ==> Justified(acts, spec, UpgradeMove(a, act).value)
    ensures FinalMove(a, act).Some? ==> Justified(acts + [act], spec, FinalMove(a, act).value)
  {
    assert act in acts + [act];
  }

  lemma JustifiedMove(acts: seq<Act>, u: Uid, spec: MachineSpec, a: Actor, act: Act)
    requires Justified(acts, spec, a) && Move(u, spec, a, act).Some?
    requires !act.Start? && !act.StartDelete?
    ensures Justified(acts + [act], spec, Move(u, spec, a, act).value)
  {
    hide Justified, ClaimMove, AdoptMove, UpgradeMove, FinalMove, Intended, AfterPatch;
    var a' := Move(u, spec, a, act).value;
    if act.Patch? {
      JustifiedPatch(acts + [act], spec, a.pc, act.self, a');
    } else if ClaimAct(act) {
      JustifiedClaim(acts, u, spec, a, act);
      MoreActs(acts, act, spec, a');
    } else if AdoptAct(act) {
      JustifiedAdopt(acts, spec, a, act);
    } else {
      JustifiedRest(acts + [act], spec, a, act);
      JustifiedRest(acts, spec, a, act);
    }
  }

  lemma JustifiedStart(u: Uid, spec: MachineSpec, a: Actor, act: Act)
    requires Move(u, spec, a, act).Some? && (act.Start? || act.StartDelete?)
    ensures Justified([act], spec, Move(u, spec, a, act).value)
  {
  }

  // ---------- The host reconciler ----------

  predicate HostJustified(acts: seq<HostAct>, a: HostActor) {
    match a.pc
    case Discover => a.base.phase in {Unavailable, Releasing} ==> ProbeLiveness(true) in acts
    case Report(report) =>
      (match report
       case Found(d) =>
         RunDiscovery(Some(d)) in acts && (a.base.phase in {Unavailable, Releasing} ==> ProbeLiveness(true) in acts)
       case NotFound => RunDiscovery(None) in acts
       case Alive => ProbeLiveness(true) in acts
       case Silent => ProbeLiveness(false) in acts
       case Waiting => ProbeLiveness(false) in acts)
    case _ => true
  }

  lemma HostJustifiedMove(acts: seq<HostAct>, a: HostActor, threshold: nat, act: HostAct)
    requires HostJustified(acts, a) && HostMove(a, threshold, act).Some?
    ensures HostJustified(if act.ReadSelf? then [act] else acts + [act], HostMove(a, threshold, act).value)
  {
    var acts' := acts + [act];
    assert act in acts';
    assert forall x :: x in acts ==> x in acts';
  }

  // ---------- Every run ----------

  ghost predicate Evident(log: seq<Step>, w: World) {
    && (forall u :: u in w.machines ==> Justified(Acts(log, u), w.machines[u].spec, w.machines[u].actor))
    && (forall name :: name in w.hosts ==> HostJustified(HostActs(log, name), w.hosts[name].actor))
  }

  lemma ActsSnoc(log: seq<Step>, step: Step, u: Uid)
    ensures Acts(log + [step], u) ==
              if !(step.MachineStep? && step.u == u) then Acts(log, u)
              else if step.act.Start? || step.act.StartDelete? then [step.act]
              else Acts(log, u) + [step.act]
  {
    assert (log + [step])[..|log|] == log;
  }

  lemma HostActsSnoc(log: seq<Step>, step: Step, name: HostName)
    ensures HostActs(log + [step], name) ==
              if !(step.HostStep? && step.host == name) then HostActs(log, name)
              else if step.hostAct.ReadSelf? then [step.hostAct]
              else HostActs(log, name) + [step.hostAct]
  {
    assert (log + [step])[..|log|] == log;
  }

  lemma EvidentMachine(log: seq<Step>, w: World, step: Step, u: Uid)
    requires Evident(log, w) && Next(w, step).Some? && u in w.machines
    ensures var w' := Next(w, step).value;
            u in w'.machines && Justified(Acts(log + [step], u), w'.machines[u].spec, w'.machines[u].actor)
  {
    hide Next, Justified, Move, Possible, HostsAfter, StoredAfter, HistoryAfter, SpecEdit;
    ActsSnoc(log, step, u);
    if step.MachineStep? && step.u == u {
      OwnStep(w, u, step.act);
      var m := w.machines[u];
      if step.act.Start? || step.act.StartDelete? {
        JustifiedStart(u, m.spec, m.actor, step.act);
      } else {
        JustifiedMove(Acts(log, u), u, m.spec, m.actor, step.act);
      }
    } else {
      OthersStep(w, step, u);
    }
  }

  lemma ActorByReconcile(hosts: map<HostName, Host>, u: Uid, m: Machine, act: Act, name: HostName)
    requires Possible(hosts, m, act) && name in hosts && name in HostsAfter(hosts, u, m, act)
    ensures HostsAfter(hosts, u, m, act)[name].actor == hosts[name].actor
  {
  }

  lemma ActorByEvent(h: Host, event: Event)
    requires HostEvent(h, event).Some?
    ensures HostEvent(h, event).value.actor == h.actor
  {
  }

  lemma ActorByHost(h: Host, act: HostAct)
    requires HostNext(h, act).Some?
    ensures HostMove(h.actor, h.threshold, act) == Some(HostNext(h, act).value.actor)
  {
  }

  lemma EvidentHost(log: seq<Step>, w: World, step: Step, name: HostName)
    requires Evident(log, w) && Next(w, step).Some? && name in w.hosts && name in Next(w, step).value.hosts
    ensures HostJustified(HostActs(log + [step], name), Next(w, step).value.hosts[name].actor)
  {
    hide Next, HostJustified, HostMove, HostNext, HostEvent, Move, Possible, HostsAfter;
    HostActsSnoc(log, step, name);
    match step
    case MachineStep(u, act) =>
      OwnStep(w, u, act);
      ActorByReconcile(w.hosts, u, w.machines[u], act, name);
    case HostStep(x, act) =>
      UnclaimedStep(w, step);
      if x == name {
        ActorByHost(w.hosts[name], act);
        HostJustifiedMove(HostActs(log, name), w.hosts[name].actor, w.hosts[name].threshold, act);
      }
    case Outside(event) =>
      UnclaimedStep(w, step);
      if Next(w, step).value.hosts != w.hosts && event.host == name {
        ActorByEvent(w.hosts[name], event);
      }
  }

  lemma EvidentStep(log: seq<Step>, w: World, step: Step)
    requires Recorded(w) && Evident(log, w) && Next(w, step).Some?
    ensures Evident(log + [step], Next(w, step).value)
  {
    hide Next, Recorded, Justified, HostJustified;
    var w' := Next(w, step).value;
    StepKeepsMachines(w, step);
    StepGrowsHosts(w, step);
    forall u | u in w'.machines
      ensures Justified(Acts(log + [step], u), w'.machines[u].spec, w'.machines[u].actor)
    {
      EvidentMachine(log, w, step, u);
    }
    forall name | name in w'.hosts
      ensures HostJustified(HostActs(log + [step], name), w'.hosts[name].actor)
    {
      EvidentHost(log, w, step, name);
    }
  }

  lemma InitEvident(w: World)
    requires Init(w)
    ensures Evident([], w)
  {
  }

  lemma {:induction false} EvidentAlways(first: World, log: seq<Step>, w: World)
    requires Ran(first, log, w)
    ensures Evident(log, w)
  {
    hide Init, Evident, Next;
    if log == [] {
      InitEvident(w);
    } else {
      var before := Play(first, log[..|log| - 1]).value;
      EvidentAlways(first, log[..|log| - 1], before);
      RecordedAlways(first, log[..|log| - 1]);
      EvidentStep(log[..|log| - 1], before, Last(log));
      assert log[..|log| - 1] + [Last(log)] == log;
    }
  }
}
