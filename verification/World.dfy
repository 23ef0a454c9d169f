/** The whole system: every host with the full history of its record, the physical
    machine behind it and its reconciler; every ByotMachine with its reconciler; and
    the operator. A step is one API call, one RPC, one crash or one outside event. */
module World {
  import opened Common
  import opened Records
  import opened HostProtocol
  import opened MachineProtocol

  /** What the machine's STATE volume holds: nothing (maintenance mode), or a config
      carrying a PKI bundle, applied by machine owner or (None) by somebody else. */
  datatype Config = Empty | Configured(owner: Option<Uid>, bundle: string)

  /** versions is every record ever stored under this name, oldest first. installBoot is
      the boot during which image and version installed were last put on disk. */
  datatype Host = Host(
    versions: seq<HostRec>, gone: bool, threshold: nat, actor: HostActor,
    config: Config, boot: nat, running: string, installed: string, image: string, installBoot: nat)

  /** The upgrade attempt whose pre-probe answered tag on host. settled says that nothing
      was installed there but not yet running; installed is the boot during which the
      attempt's own install finished. */
  datatype Attempt = Attempt(host: HostName, tag: string, ref: string, settled: bool, installed: Option<nat>)

  /** What happened to a machine so far. issues lists the generation of every call of
      upgradeMachine. */
  datatype History = History(
    started: nat, released: bool, issues: seq<nat>, attempt: Option<Attempt>, emptyTag: bool,
    pollFailures: nat, adopted: Option<HostName>, evicted: Option<HostName>)

  datatype Machine = Machine(spec: MachineSpec, stored: MachineRec, gone: bool, actor: Actor, hist: History)

  datatype World = World(hosts: map<HostName, Host>, machines: map<Uid, Machine>)

  datatype Event =
    | PowerCycle(host: HostName)
    | WipeByHand(host: HostName)
    | ConfigureByHand(host: HostName, bundle: string)
    | EditHost(host: HostName, labels: map<string, string>, failureDomain: string)
    | DeleteHost(host: HostName)
    | EditDesired(u: Uid, ref: string)
    | EditSpec(u: Uid)
    | DeleteMachine(u: Uid)

  datatype Step =
    | MachineStep(u: Uid, act: Act)
    | HostStep(host: HostName, hostAct: HostAct)
    | Outside(event: Event)

  // ---------- The API server's host records ----------

  function Store(h: Host, rec: HostRec): Host {
    h.(versions := h.versions + [rec])
  }

  predicate IsCurrent(h: Host, at: nat) {
    !h.gone && at + 1 == |h.versions|
  }

  predicate SeenIn(hosts: map<HostName, Host>, name: HostName, seen: Seen) {
    match seen
    case Missing => name in hosts ==> hosts[name].gone
    case Version(at, rec) => name in hosts && at < |hosts[name].versions| && hosts[name].versions[at] == rec
  }

  /** What a list may return: every host at most once, each in some past version. */
  predicate Listing(hosts: map<HostName, Host>, items: seq<Listed>) {
    && (forall i :: 0 <= i < |items| ==> SeenIn(hosts, items[i].name, Version(items[i].at, items[i].rec)))
    && (forall i, j :: 0 <= i < j < |items| ==> items[i].name != items[j].name)
  }

  // ---------- The physical machine ----------

  function Rebooted(h: Host): Host {
    h.(boot := h.boot + 1, running := h.installed)
  }

  function Wiped(h: Host): Host {
    Rebooted(h.(config := Empty))
  }

  function Installed(h: Host, image: string, tag: string): Host {
    h.(image := image, installed := tag, installBoot := h.boot)
  }

  /** Applying a config in maintenance installs it and reboots into it. */
  function Applied(h: Host, u: Uid, bundle: string, tag: string): Host {
    var configured := h.(config := Configured(Some(u), bundle));
    if h.config.Empty? then Rebooted(Installed(configured, "", tag)) else configured
  }

  predicate Accepts(config: Config, spec: MachineSpec, auth: Auth) {
    match auth
    case Insecure => config.Empty?
    case ClusterBundle => config.Configured? && config.bundle == spec.cluster
    case ReferencedBundle => config.Configured? && Some(config.bundle) == spec.talosRef
  }

  // ---------- What a machine's act needs from and does to the hosts ----------

  function ReadTarget(spec: MachineSpec, a: Actor): Option<HostName> {
    match a.pc
    case CasGet(host, _) => Some(host)
    case Select => spec.hostRef
    case _ => a.local.resolvedHost
  }

  function PutTarget(a: Actor): Option<HostName> {
    match a.pc
    case CasPut(host, _, _, _) => Some(host)
    case CasFinalizer(host, _, _, _) => Some(host)
    case _ => a.local.resolvedHost
  }

  function PutAt(pc: Pc): nat {
    match pc
    case CasPut(_, _, at, _) => at
    case CasFinalizer(_, _, at, _) => at
    case MirrorPut(at, _) => at
    case ReleasePut(at, _, _) => at
    case _ => 0
  }

  /** The host RPCs of this actor go to. */
  function Target(a: Actor): HostName {
    if a.local.resolvedHost.Some? then a.local.resolvedHost.value else ""
  }

  predicate Written(hosts: map<HostName, Host>, a: Actor, ok: bool) {
    var t := PutTarget(a);
    t.Some? && t.value in hosts && ok == IsCurrent(hosts[t.value], PutAt(a.pc))
  }

  /** Whether the API server, the machine and the credentials can give this answer.
      A lost or refused RPC is always possible. */
  predicate Possible(hosts: map<HostName, Host>, m: Machine, act: Act) {
    var a := m.actor;
    var t := Target(a);
    match act
    case Start(self, _) => !m.gone && !m.stored.deleting && self == m.stored.(finalizer := true)
    case StartDelete(self) => !m.gone && m.stored.deleting && m.stored.finalizer && self == m.stored
    case Abort => true
    case ReadHost(seen) =>
      var r := ReadTarget(m.spec, a);
      r.Some? && SeenIn(hosts, r.value, seen)
    case ListHosts(items) => Listing(hosts, items)
    case PutStatus(_, ok) => Written(hosts, a, ok)
    case PutFinalizer(ok) => Written(hosts, a, ok)
    case Patch(_) => !m.gone
    case FetchConfig(_) => true
    case ProbeMaintenance(ok) => ok ==> t in hosts && hosts[t].config.Empty?
    case ProbeBundle(auth, ok) => ok ==> t in hosts && Accepts(hosts[t].config, m.spec, auth)
    case CheckControlPlane(_) => true
    case ApplyConfig(ok, _) => ok ==> t in hosts && a.pc.Apply? && Accepts(hosts[t].config, m.spec, a.pc.auth)
    case ReadVersion(answer) =>
      answer.Tag? ==> t in hosts && Accepts(hosts[t].config, m.spec, ClusterBundle) &&
                      (answer.tag == "" || answer.tag == hosts[t].running)
    case Install(result) => result != Broken ==> t in hosts && Accepts(hosts[t].config, m.spec, ClusterBundle)
    case CaptureBoot(id) =>
      id != 0 ==> t in hosts && Accepts(hosts[t].config, m.spec, ClusterBundle) && id == hosts[t].boot + 1
    case Reboot(ok) => ok ==> t in hosts && Accepts(hosts[t].config, m.spec, ClusterBundle)
    case ReadBoot(live) =>
      live.Boot? ==> t in hosts && Accepts(hosts[t].config, m.spec, ClusterBundle) && live.id in {0, hosts[t].boot + 1}
    case Reset(ok) => ok ==> t in hosts && exists auth :: Accepts(hosts[t].config, m.spec, auth)
    case LinkNode(_) => true
    case RemoveFinalizer(_) => !m.gone
  }

  function HostsAfter(hosts: map<HostName, Host>, u: Uid, m: Machine, act: Act): map<HostName, Host>
    requires Possible(hosts, m, act)
  {
    var a := m.actor;
    var t := Target(a);
    match act
    case PutStatus(rec, ok) =>
      if ok then hosts[PutTarget(a).value := Store(hosts[PutTarget(a).value], rec)] else hosts
    case PutFinalizer(ok) =>
      if ok && a.pc.CasFinalizer? then
        hosts[PutTarget(a).value := Store(hosts[PutTarget(a).value], a.pc.seen.(finalizer := true))]
      else hosts
    case ApplyConfig(ok, tag) => if ok then hosts[t := Applied(hosts[t], u, m.spec.cluster, tag)] else hosts
    case Install(result) =>
      if result.Broken? then hosts else hosts[t := Installed(hosts[t], a.local.desired, result.tag)]
    case Reboot(ok) => if ok then hosts[t := Rebooted(hosts[t])] else hosts
    case Reset(ok) => if ok then hosts[t := Wiped(hosts[t])] else hosts
    case _ => hosts
  }

  function StoredAfter(m: Machine, act: Act): MachineRec {
    match act
    case Start(self, _) => self
    case Patch(self) => PatchMachine(m.stored, PatchBase(m.actor), self)
    case RemoveFinalizer(ok) => if ok then m.stored.(finalizer := false) else m.stored
    case _ => m.stored
  }

  function HistoryAfter(hosts: map<HostName, Host>, m: Machine, act: Act): History {
    var pc, t, hist := m.actor.pc, Target(m.actor), m.hist;
    match act
    case Start(_, _) => hist.(started := hist.started + 1)
    case StartDelete(_) => hist.(started := hist.started + 1)
    case PutStatus(_, ok) => if ok && pc.ReleasePut? then hist.(released := true) else hist
    case Patch(_) =>
      if pc.WriteAhead? then hist.(pollFailures := 0)
      else if pc.Adopt? then hist.(adopted := m.actor.local.resolvedHost)
      else if pc.FailClear? then hist.(evicted := m.actor.local.resolvedHost)
      else hist
    case ReadVersion(answer) =>
      if answer.NoVersion? then
        if pc.Fallback? then hist.(pollFailures := hist.pollFailures + 1) else hist
      else
        var tagged := hist.(emptyTag := hist.emptyTag || answer.tag == "");
        if pc.PreProbe? && t in hosts then
          tagged.(attempt := Some(Attempt(t, answer.tag, m.actor.local.desired,
                                          hosts[t].installed == hosts[t].running == answer.tag, None)))
        else tagged
    case ReadBoot(live) =>
      if live.NoBoot? then hist.(pollFailures := hist.pollFailures + 1) else hist
    case Install(result) =>
      var issued := hist.(issues := hist.issues + [m.actor.local.generation]);
      if !result.Broken? && t in hosts && hist.attempt.Some? then
        issued.(attempt := Some(hist.attempt.value.(installed := Some(hosts[t].boot))))
      else issued
    case _ => hist
  }

  // ---------- Steps ----------

  function MachineNext(w: World, u: Uid, act: Act): Option<World> {
    if u !in w.machines then None
    else
      var m := w.machines[u];
      var moved := Move(u, m.spec, m.actor, act);
      if moved.Some? && Possible(w.hosts, m, act) then
        Some(World(HostsAfter(w.hosts, u, m, act),
                   w.machines[u := m.(stored := StoredAfter(m, act),
                                      gone := m.gone || act == RemoveFinalizer(true),
                                      actor := moved.value,
                                      hist := HistoryAfter(w.hosts, m, act))]))
      else None
  }

  predicate HostPossible(h: Host, act: HostAct) {
    match act
    case ReadSelf(at, rec) => at < |h.versions| && h.versions[at] == rec
    case EnsureFinalizer => !h.gone && h.versions != []
    case ProbeLiveness(ok) => ok ==> h.config.Empty?
    case RunDiscovery(result) => result.Some? ==> h.config.Empty?
    case PatchSelf(_) => !h.gone && h.versions != []
    case DropFinalizer(ok) => ok == IsCurrent(h, h.actor.at)
    case Crash => true
  }

  function HostNext(h: Host, act: HostAct): Option<Host> {
    var moved := HostMove(h.actor, h.threshold, act);
    if moved.None? || !HostPossible(h, act) then None
    else
      var h' := h.(actor := moved.value);
      match act
      case EnsureFinalizer => Some(Store(h', Last(h.versions).(finalizer := true)))
      case PatchSelf(rec) => Some(Store(h', PatchHost(Last(h.versions), h.actor.base, rec)))
      case DropFinalizer(ok) => Some(h'.(gone := ok || h.gone))
      case _ => Some(h')
  }

  function HostEvent(h: Host, event: Event): Option<Host> {
    match event
    case PowerCycle(_) => Some(Rebooted(h))
    case WipeByHand(_) => Some(Wiped(h))
    case ConfigureByHand(_, bundle) =>
      if h.config.Empty? then Some(h.(config := Configured(None, bundle))) else None
    case EditHost(_, labels, failureDomain) =>
      if h.gone || h.versions == [] then None
      else Some(Store(h, Last(h.versions).(labels := labels, failureDomain := failureDomain)))
    case DeleteHost(_) =>
      if h.gone || h.versions == [] then None
      else if Last(h.versions).finalizer then Some(Store(h, Last(h.versions).(deleting := true)))
      else Some(h.(gone := true))
    case _ => None
  }

  function MachineEvent(m: Machine, event: Event): Option<Machine> {
    if m.gone then None
    else
      match event
      case EditDesired(_, ref) =>
        if ref == m.stored.desired then None
        else Some(m.(stored := m.stored.(desired := ref, generation := m.stored.generation + 1)))
      case EditSpec(_) => Some(m.(stored := m.stored.(generation := m.stored.generation + 1)))
      case DeleteMachine(_) =>
        if m.stored.finalizer then Some(m.(stored := m.stored.(deleting := true))) else Some(m.(gone := true))
      case _ => None
  }

  function SetHost(w: World, name: HostName, h: Option<Host>): Option<World> {
    if h.Some? then Some(w.(hosts := w.hosts[name := h.value])) else None
  }

  function OutsideNext(w: World, event: Event): Option<World> {
    if event.EditDesired? || event.EditSpec? || event.DeleteMachine? then
      if event.u !in w.machines then None
      else
        var m := MachineEvent(w.machines[event.u], event);
        if m.Some? then Some(w.(machines := w.machines[event.u := m.value])) else None
    else if event.host in w.hosts then SetHost(w, event.host, HostEvent(w.hosts[event.host], event))
    else None
  }

  function Next(w: World, step: Step): Option<World> {
    match step
    case MachineStep(u, act) => MachineNext(w, u, act)
    case HostStep(name, act) =>
      if name in w.hosts then SetHost(w, name, HostNext(w.hosts[name], act)) else None
    case Outside(event) => OutsideNext(w, event)
  }

  function Play(w: World, log: seq<Step>): Option<World> {
    if log == [] then Some(w)
    else
      var before := Play(w, log[..|log| - 1]);
      if before.Some? then Next(before.value, Last(log)) else None
  }

  // ---------- Where runs begin ----------

  predicate FreshHost(h: Host) {
    && |h.versions| == 1 && !h.gone && h.threshold > 0
    && h.actor.pc.HostIdle?
    && var r := h.versions[0];
    && r.publicIP != "" && r.phase == Unset && r.claimRef.None? && !r.probed && r.failures == 0 && !r.finalizer && !r.deleting
    && (h.config.Configured? ==> h.config.owner.None?)
    && h.running == h.installed && h.installBoot <= h.boot
  }

  predicate FreshMachine(m: Machine) {
    && !m.gone && m.actor.pc.Idle?
    && m.spec.versionThreshold > 0 && m.spec.upgradeThreshold > 0
    && var s := m.stored;
    && s.generation > 0 && s.providerID == "" && !s.finalizer && !s.deleting
    && s.resolvedHost.None? && s.resolvedIP == "" && !s.ready && s.configSHA == "" && !s.nodeUpdated
    && s.talosVersion == "" && s.upgrade == NoUpgrade && s.probeFailures == 0
    && s.attemptGeneration == 0 && s.appliedRef == "" && s.preRebootBoot == 0
    && m.hist == History(0, false, [], None, false, 0, None, None)
  }

  /** Any number of new hosts, on distinct public IPs, and of new machines. */
  predicate Init(w: World) {
    && (forall name :: name in w.hosts ==> FreshHost(w.hosts[name]))
    && (forall a, b :: a in w.hosts && b in w.hosts && a != b ==>
          w.hosts[a].versions[0].publicIP != w.hosts[b].versions[0].publicIP)
    && (forall u :: u in w.machines ==> FreshMachine(w.machines[u]))
  }
}
