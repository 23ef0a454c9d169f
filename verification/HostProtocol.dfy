/** The ByotHost reconciler as a control automaton: what one reconcile may ask the
    API server and the machine for, in which order, and what it writes. */
module HostProtocol {
  import opened Common
  import opened Records
  import opened Discovery

  /** Why the reconcile patches. */
  datatype Report =
    | Found(result: DiscoveryResult)   // discovery succeeded
    | NotFound                   // discovery failed
    | Alive                      // an Available host answered its liveness probe
    | Silent                     // an Available host did not
    | Waiting                    // an Unavailable or Releasing host still does not answer

  datatype HostPc =
    | HostIdle
    | Finalizing
    | Probe
    | Discover
    | Report(report: Report)
    | Removing

  /** base is the snapshot the patch was opened on, read as version at. answered says
      that maintenance answered earlier in this reconcile. */
  datatype HostActor = HostActor(pc: HostPc, at: nat, base: HostRec, answered: bool)

  datatype HostAct =
    | ReadSelf(at: nat, rec: HostRec)
    | EnsureFinalizer
    | ProbeLiveness(ok: bool)
    | RunDiscovery(result: Option<DiscoveryResult>)
    | PatchSelf(rec: HostRec)
    | DropFinalizer(ok: bool)
    | Crash

  function PhasePc(phase: Phase): HostPc {
    match phase
    case Unset | Probing => Discover
    case Available | Unavailable | Releasing => Probe
    case Claimed => HostIdle
  }

  function WithLabels(h: HostRec): HostRec {
    h.(labels := DiscoveryLabels(h))
  }

  function Populate(h: HostRec, d: DiscoveryResult): HostRec {
    h.(talosVersion := d.talosVersion, arch := d.arch, platform := d.platform, hardware := Some(d.hardware))
  }

  function AfterFailedProbe(h: HostRec, threshold: nat): HostRec {
    h.(maintenance := false, failures := h.failures + 1, probed := false,
       phase := if h.failures + 1 >= threshold then Unavailable else h.phase)
  }

  /** The in-memory record a reconcile with this report patches. */
  function Reported(h: HostRec, report: Report, threshold: nat): HostRec {
    WithLabels(
      match report
      case Found(d) =>
        Populate(h, d).(phase := Available, maintenance := true, failures := 0, probed := true,
                        claimRef := if h.phase == Releasing then None else h.claimRef)
      case NotFound => h.(maintenance := false, phase := Probing, probed := false)
      case Alive => h.(maintenance := true, failures := 0, probed := true)
      case Silent => AfterFailedProbe(h, threshold)
      case Waiting => h)
  }

  function AfterProbe(phase: Phase, ok: bool): HostPc {
    if phase == Available then Report(if ok then Alive else Silent)
    else if ok then Discover
    else Report(Waiting)
  }

  function HostMove(a: HostActor, threshold: nat, act: HostAct): Option<HostActor> {
    match act
    case Crash =>
      if a.pc.HostIdle? then None else Some(a.(pc := HostIdle))
    case ReadSelf(at, rec) =>
      if !a.pc.HostIdle? then None
      else Some(HostActor(
        if rec.deleting then (if rec.finalizer && rec.claimRef.None? then Removing else HostIdle)
        else if rec.finalizer then PhasePc(rec.phase)
        else Finalizing,
        at, rec, false))
    case EnsureFinalizer =>
      if !a.pc.Finalizing? then None
      else Some(a.(pc := PhasePc(a.base.phase), base := a.base.(finalizer := true)))
    case ProbeLiveness(ok) =>
      if !a.pc.Probe? then None
      else Some(a.(pc := AfterProbe(a.base.phase, ok), answered := ok))
    case RunDiscovery(result) =>
      if !a.pc.Discover? then None
      else Some(a.(pc := Report(if result.Some? then Found(result.value) else NotFound),
                   answered := a.answered || result.Some?))
    case PatchSelf(rec) =>
      if a.pc.Report? && rec == Reported(a.base, a.pc.report, threshold) then Some(a.(pc := HostIdle)) else None
    case DropFinalizer(ok) =>
      if a.pc.Removing? then Some(a.(pc := HostIdle)) else None
  }
}
