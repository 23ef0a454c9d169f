/** The ByotMachine reconciler as a control automaton: claim, adopt, upgrade and
    release, one API call or RPC at a time. */
module MachineProtocol {
  import opened Common
  import opened Records

  /** What the operator fixed about a machine. cluster and talosRef name PKI bundles. */
  datatype MachineSpec = MachineSpec(
    hostRef: Option<HostName>, failureDomain: string, cluster: string, talosRef: Option<string>,
    worker: bool, versionThreshold: nat, upgradeThreshold: nat)

  /** A host as some read returned it: version at of its history. */
  datatype Seen = Missing | Version(at: nat, rec: HostRec)

  datatype Listed = Listed(name: HostName, at: nat, rec: HostRec)

  datatype Auth = Insecure | ClusterBundle | ReferencedBundle

  /** What a wait for a talosconfig secret is for. */
  datatype Need = ForReapply | ForPreflight | ForReference | ForIssue | ForPoll

  /** How an upgrade was found complete. */
  datatype Via = ByBoot | ByTag | ByRecord

  datatype Pc =
    | Idle
    // claim
    | Verify | ClearClaim | HealIP(ip: string) | Select
    | CasGet(host: HostName, ip: string)
    | CasPut(host: HostName, ip: string, at: nat, seen: HostRec)
    | CasFinalizer(host: HostName, ip: string, at: nat, seen: HostRec)
    | Record(host: HostName, ip: string)
    // adoption
    | NeedConfig(need: Need)
    | Preflight | PreflightCluster | PreflightReference
    | Gate(auth: Auth) | Apply(auth: Auth) | Adopt
    // upgrade
    | Retrigger | PreProbe | WriteAhead(tag: string)
    | Issue | Capture | Restart(boot: BootId) | Stash(boot: BootId)
    | PollBoot | PollTag | Fallback | HoldBoot | HoldTag(tag: string)
    | CountFailure(polling: bool) | GiveUp | FailMark | Evict | FailClear
    | Completing(via: Via, tag: string) | MirrorGet | MirrorPut(at: nat, seen: HostRec)
    | Link | LinkSave
    // release
    | ReleaseGet | ReleaseProbe(at: nat, seen: HostRec) | ReleaseReset(at: nat, seen: HostRec)
    | ReleasePut(at: nat, seen: HostRec, phase: Phase) | ReleaseFinalizer

  /** base is the snapshot of the reconcile's patch helper, local the in-memory record as
      last committed. answered and controlPlane remember a positive maintenance answer
      and a ready control plane within this reconcile. */
  datatype Actor = Actor(pc: Pc, base: MachineRec, local: MachineRec, hash: string,
                         answered: bool, controlPlane: bool)

  datatype VersionAnswer = Tag(tag: string) | NoVersion
  datatype BootAnswer = Boot(id: BootId) | Unauthorized | NoBoot
  datatype InstallAnswer = Done(tag: string) | Broken | BrokenAfter(tag: string)

  datatype Act =
    | Start(self: MachineRec, hash: string)
    | StartDelete(self: MachineRec)
    | Abort                                  // a crash, or an API error the reconcile returns
    | ReadHost(seen: Seen)
    | ListHosts(items: seq<Listed>)
    | PutStatus(rec: HostRec, ok: bool)      // versioned; not ok is a conflict
    | PutFinalizer(ok: bool)
    | Patch(self: MachineRec)
    | FetchConfig(found: bool)
    | ProbeMaintenance(ok: bool)
    | ProbeBundle(auth: Auth, ok: bool)
    | CheckControlPlane(ready: bool)
    | ApplyConfig(ok: bool, tag: string)
    | ReadVersion(answer: VersionAnswer)
    | Install(result: InstallAnswer)
    | CaptureBoot(id: BootId)
    | Reboot(ok: bool)
    | ReadBoot(live: BootAnswer)
    | Reset(ok: bool)
    | LinkNode(patched: bool)
    | RemoveFinalizer(ok: bool)

  // ---------- Claim selection ----------

  predicate ClaimableBy(h: HostRec, u: Uid) {
    h.phase == Available && h.probed && (h.claimRef.None? || h.claimRef == Some(u))
  }

  predicate MatchesFailureDomain(h: HostRec, want: string) {
    want == "" || h.failureDomain == "" || h.failureDomain == want
  }

  predicate Candidate(h: HostRec, u: Uid, want: string) {
    ClaimableBy(h, u) && MatchesFailureDomain(h, want)
  }

  function Candidates(items: seq<Listed>, u: Uid, want: string): (kept: seq<Listed>)
    ensures forall c :: c in kept <==> c in items && Candidate(c.rec, u, want)
    ensures forall c :: c in kept <==>
              && c in items && c.rec.phase == Available && c.rec.probed
              && (c.rec.claimRef == None || c.rec.claimRef == Some(u))
              && (want == "" || c.rec.failureDomain == "" || c.rec.failureDomain == want)
  {
    if items == [] then []
    else
      var rest := Candidates(items[1..], u, want);
      if Candidate(items[0].rec, u, want) then [items[0]] + rest else rest
  }

  /** The candidate with the least name, the first one on equal names. */
  function LeastCandidate(items: seq<Listed>, u: Uid, want: string): (best: Option<Listed>)
    ensures best.Some? ==> best.value in items && Candidate(best.value.rec, u, want)
    ensures best.None? ==> forall c :: c in items ==> !Candidate(c.rec, u, want)
    ensures best.Some? ==> forall c :: c in items && Candidate(c.rec, u, want) ==> !StringLess(c.name, best.value.name)
    decreases |items|
  {
    if items == [] then None
    else
      var rest := LeastCandidate(items[1..], u, want);
      if !Candidate(items[0].rec, u, want) then
        rest
      else if rest.Some? && StringLess(rest.value.name, items[0].name) then
        StringLessTotal(rest.value.name, items[0].name);
        rest
      else
        HeadIsLeast(items, rest, u, want);
        Some(items[0])
  }

  lemma HeadIsLeast(items: seq<Listed>, rest: Option<Listed>, u: Uid, want: string)
    requires items != []
    requires rest.None? ==> forall c :: c in items[1..] ==> !Candidate(c.rec, u, want)
    requires rest.Some? ==> !StringLess(rest.value.name, items[0].name)
    requires rest.Some? ==>
               forall c :: c in items[1..] && Candidate(c.rec, u, want) ==> !StringLess(c.name, rest.value.name)
    ensures forall c :: c in items && Candidate(c.rec, u, want) ==> !StringLess(c.name, items[0].name)
  {
    StringLessTotal(items[0].name, items[0].name);
    forall c | c in items[1..] && Candidate(c.rec, u, want)
      ensures !StringLess(c.name, items[0].name)
    {
      if StringLess(c.name, items[0].name) {
        StringLessTotal(c.name, rest.value.name);
        StringLessTotal(rest.value.name, items[0].name);
        if c.name != rest.value.name && rest.value.name != items[0].name {
          StringLessTransitive(c.name, items[0].name, rest.value.name);
        }
      }
    }
  }

  // ---------- Branches between API calls ----------

  /** adopt, once the claim is settled. */
  function DecidePc(m: MachineRec, hash: string): Pc {
    if m.upgrade == Failed || ConfigUnchanged(m, hash) then EnsurePc(m)
    else if m.ready then NeedConfig(ForReapply)
    else Preflight
  }

  /** ensureTalosVersion, entry. */
  function EnsurePc(m: MachineRec): Pc {
    if m.desired == "" || !m.ready then Link
    else if m.upgrade == Failed && m.generation != m.attemptGeneration then Retrigger
    else DispatchPc(m)
  }

  function DispatchPc(m: MachineRec): Pc {
    match m.upgrade
    case NoUpgrade => if AlreadyApplied(m) then Completing(ByRecord, m.talosVersion) else NeedConfig(ForIssue)
    case InFlight => NeedConfig(ForPoll)
    case Failed => Idle
  }

  function GatePc(spec: MachineSpec, auth: Auth): Pc {
    if spec.worker then Gate(auth) else Apply(auth)
  }

  function MirrorPc(m: MachineRec): Pc {
    if m.resolvedHost.None? || m.talosVersion == "" then Link else MirrorGet
  }

  function FailedRec(m: MachineRec): MachineRec {
    m.(upgrade := Failed, attemptGeneration := m.generation)
  }

  function CompletedRec(m: MachineRec): MachineRec {
    m.(upgrade := NoUpgrade, preRebootBoot := 0, appliedRef := m.desired, attemptGeneration := m.generation)
  }

  /** What the in-memory record must be when the reconcile patches at this point; None
      where it does not patch. */
  function Intended(a: Actor): Option<MachineRec> {
    var m := a.local;
    match a.pc
    case ClearClaim => Some(m.(resolvedHost := None, resolvedIP := ""))
    case HealIP(ip) => Some(m.(resolvedIP := ip))
    case Record(host, ip) => Some(m.(resolvedHost := Some(host), resolvedIP := ip))
    case Adopt => Some(m.(providerID := PROVIDER_PREFIX + m.resolvedIP, ready := true, configSHA := a.hash))
    case Retrigger => Some(m.(upgrade := NoUpgrade, probeFailures := 0))
    case WriteAhead(tag) =>
      Some(m.(talosVersion := tag, probeFailures := 0, upgrade := InFlight,
              attemptGeneration := m.generation, preRebootBoot := 0))
    case Stash(boot) => Some(m.(preRebootBoot := boot))
    case HoldBoot => Some(m)
    case HoldTag(tag) => Some(m.(talosVersion := tag, probeFailures := 0))
    case CountFailure(_) => Some(m.(probeFailures := m.probeFailures + 1))
    case GiveUp => Some(FailedRec(m))
    case FailMark => Some(FailedRec(m))
    case FailClear => Some(m.(ready := false, configSHA := ""))
    case Completing(via, tag) =>
      Some(CompletedRec(m.(talosVersion := tag,
                           probeFailures := if via == ByTag then 0 else m.probeFailures)))
    case LinkSave => Some(m.(nodeUpdated := true))
    case _ => None
  }

  /** The snapshot that patch is computed against: finalizeUpgradeFailure opens fresh
      helpers, every other patch uses the one opened when the reconcile began. */
  function PatchBase(a: Actor): MachineRec {
    if a.pc.FailMark? || a.pc.FailClear? then a.local else a.base
  }

  /** Where control goes after the patch; m is the record just committed. */
  function AfterPatch(spec: MachineSpec, pc: Pc, m: MachineRec, hash: string): Pc {
    match pc
    case ClearClaim => Select
    case HealIP(_) | Record(_, _) => DecidePc(m, hash)
    case Adopt => EnsurePc(m)
    case Retrigger => DispatchPc(m)
    case WriteAhead(_) => Issue
    case CountFailure(polling) =>
      if m.probeFailures < (if polling then spec.upgradeThreshold else spec.versionThreshold) then Idle
      else if polling then FailMark
      else GiveUp
    case FailMark => Evict
    case Completing(_, _) => MirrorPc(m)
    case _ => Idle
  }

  function AfterRead(u: Uid, spec: MachineSpec, a: Actor, seen: Seen): Option<Pc> {
    match a.pc
    case Verify =>
      if seen.Missing? || seen.rec.claimRef != Some(u) then Some(ClearClaim)
      else if a.local.resolvedIP != seen.rec.publicIP then Some(HealIP(seen.rec.publicIP))
      else Some(DecidePc(a.local, a.hash))
    case Select =>
      if spec.hostRef.None? then None
      else if seen.Missing? || !ClaimableBy(seen.rec, u) then Some(Idle)
      else Some(CasGet(spec.hostRef.value, seen.rec.publicIP))
    case CasGet(host, ip) =>
      if seen.Missing? || (seen.rec.claimRef.Some? && seen.rec.claimRef != Some(u)) then Some(Idle)
      else Some(CasPut(host, ip, seen.at, seen.rec))
    case MirrorGet =>
      if seen.Missing? || seen.rec.talosVersion == a.local.talosVersion then Some(Link)
      else Some(MirrorPut(seen.at, seen.rec))
    case ReleaseGet =>
      if seen.Missing? then Some(ReleaseFinalizer) else Some(ReleaseProbe(seen.at, seen.rec))
    case _ => None
  }

  /** The record a versioned status update must carry at this point. */
  function ToPut(u: Uid, a: Actor): Option<HostRec> {
    match a.pc
    case CasPut(_, _, _, seen) => Some(seen.(claimRef := Some(u), phase := Claimed))
    case MirrorPut(_, seen) => Some(seen.(talosVersion := a.local.talosVersion))
    case ReleasePut(_, seen, phase) => Some(seen.(phase := phase, claimRef := None))
    case _ => None
  }

  function AfterPut(pc: Pc, rec: HostRec, ok: bool): Pc {
    if !ok then Idle
    else
      match pc
      case CasPut(host, ip, at, _) =>
        if rec.finalizer then Record(host, ip) else CasFinalizer(host, ip, at + 1, rec)
      case MirrorPut(_, _) => Link
      case ReleasePut(_, _, _) => ReleaseFinalizer
      case _ => Idle
  }

  function AfterConfig(need: Need): Pc {
    match need
    case ForReapply => Apply(ClusterBundle)
    case ForPreflight => PreflightCluster
    case ForReference => PreflightReference
    case ForIssue => PreProbe
    case ForPoll => PollBoot
  }

  function AfterVersion(a: Actor, answer: VersionAnswer): Option<Pc> {
    match a.pc
    case PreProbe => Some(if answer.Tag? then WriteAhead(answer.tag) else CountFailure(false))
    case PollTag =>
      Some(Completing(ByBoot, if answer.Tag? && answer.tag != "" then answer.tag else a.local.talosVersion))
    case Fallback =>
      Some(match answer
           case NoVersion => CountFailure(true)
           case Tag(tag) =>
             if tag == "" || tag == a.local.talosVersion then HoldTag(tag) else Completing(ByTag, tag))
    case _ => None
  }

  function AfterBoot(a: Actor, answer: BootAnswer): Pc {
    match answer
    case NoBoot => CountFailure(true)
    case Unauthorized => Fallback
    case Boot(id) => if id != 0 && id != a.local.preRebootBoot then PollTag else HoldBoot
  }

  function Goto(a: Actor, pc: Option<Pc>): Option<Actor> {
    if pc.Some? then Some(a.(pc := pc.value)) else None
  }

  function If(guard: bool, a: Actor): Option<Actor> {
    if guard then Some(a) else None
  }

  function ClaimMove(u: Uid, spec: MachineSpec, a: Actor, act: Act): Option<Actor> {
    match act
    case ReadHost(seen) => Goto(a, AfterRead(u, spec, a, seen))
    case ListHosts(items) =>
      var best := LeastCandidate(items, u, spec.failureDomain);
      If(a.pc.Select? && spec.hostRef.None?,
         a.(pc := if best.Some? then CasGet(best.value.name, best.value.rec.publicIP) else Idle))
    case PutStatus(rec, ok) => If(ToPut(u, a) == Some(rec), a.(pc := AfterPut(a.pc, rec, ok)))
    case PutFinalizer(ok) =>
      if a.pc.CasFinalizer? then Some(a.(pc := if ok then Record(a.pc.host, a.pc.ip) else Idle)) else None
    case _ => None
  }

  function AdoptMove(spec: MachineSpec, a: Actor, act: Act): Option<Actor> {
    match act
    case FetchConfig(found) =>
      if a.pc.NeedConfig? then
        Some(a.(pc := if !found then Idle
                      else if a.pc.need.ForPoll? && a.local.preRebootBoot == 0 then Fallback
                      else AfterConfig(a.pc.need)))
      else None
    case ProbeMaintenance(ok) =>
      (match a.pc
       case Preflight =>
         Some(a.(answered := ok, pc := if ok then GatePc(spec, Insecure) else NeedConfig(ForPreflight)))
       case ReleaseProbe(at, seen) =>
         Some(a.(answered := ok, pc := if ok then ReleasePut(at, seen, Available) else ReleaseReset(at, seen)))
       case _ => None)
    case ProbeBundle(auth, ok) =>
      if a.pc.PreflightCluster? && auth.ClusterBundle? then
        Some(a.(pc := if ok then GatePc(spec, ClusterBundle)
                      else if spec.talosRef.None? then Idle
                      else NeedConfig(ForReference)))
      else if a.pc.PreflightReference? && auth.ReferencedBundle? then
        Some(a.(pc := if ok then Idle else GatePc(spec, ReferencedBundle)))
      else None
    case CheckControlPlane(ready) =>
      if a.pc.Gate? then Some(a.(controlPlane := ready, pc := if ready then Apply(a.pc.auth) else Idle)) else None
    case ApplyConfig(ok, _) => If(a.pc.Apply?, a.(pc := if ok then Adopt else Idle))
    case _ => None
  }

  function UpgradeMove(a: Actor, act: Act): Option<Actor> {
    match act
    case ReadVersion(answer) => Goto(a, AfterVersion(a, answer))
    case Install(result) => If(a.pc.Issue?, a.(pc := if result.Done? then Capture else FailMark))
    case CaptureBoot(id) => If(a.pc.Capture?, a.(pc := Restart(id)))
    case Reboot(_) => if a.pc.Restart? then Some(a.(pc := Stash(a.pc.boot))) else None
    case ReadBoot(live) => If(a.pc.PollBoot?, a.(pc := AfterBoot(a, live)))
    case _ => None
  }

  function FinalMove(a: Actor, act: Act): Option<Actor> {
    match act
    case Reset(ok) =>
      (match a.pc
       case Evict => Some(a.(pc := if ok then FailClear else Idle))
       case ReleaseReset(at, seen) => Some(a.(pc := if ok then ReleasePut(at, seen, Releasing) else Idle))
       case _ => None)
    case LinkNode(patched) =>
      If(a.pc.Link? && (patched ==> !a.local.nodeUpdated && a.local.providerID != ""),
         a.(pc := if patched then LinkSave else Idle))
    case RemoveFinalizer(_) => If(a.pc.ReleaseFinalizer?, a.(pc := Idle))
    case Abort => If(!a.pc.Idle?, a.(pc := Idle))
    case _ => None
  }

  predicate ClaimAct(act: Act) {
    act.ReadHost? || act.ListHosts? || act.PutStatus? || act.PutFinalizer?
  }

  predicate AdoptAct(act: Act) {
    act.FetchConfig? || act.ProbeMaintenance? || act.ProbeBundle? || act.CheckControlPlane? || act.ApplyConfig?
  }

  predicate UpgradeAct(act: Act) {
    act.ReadVersion? || act.Install? || act.CaptureBoot? || act.Reboot? || act.ReadBoot?
  }

  /** One act of machine u's reconciler; None when its code does not perform it here. */
  function Move(u: Uid, spec: MachineSpec, a: Actor, act: Act): Option<Actor> {
    if act.Start? then
      If(a.pc.Idle?, Actor(if act.self.resolvedHost.Some? then Verify else Select,
                           act.self, act.self, act.hash, false, false))
    else if act.StartDelete? then
      If(a.pc.Idle?, Actor(if act.self.resolvedHost.Some? then ReleaseGet else ReleaseFinalizer,
                           act.self, act.self, "", false, false))
    else if act.Patch? then
      If(Intended(a) == Some(act.self), a.(local := act.self, pc := AfterPatch(spec, a.pc, act.self, a.hash)))
    else if ClaimAct(act) then ClaimMove(u, spec, a, act)
    else if AdoptAct(act) then AdoptMove(spec, a, act)
    else if UpgradeAct(act) then UpgradeMove(a, act)
    else FinalMove(a, act)
  }
}
