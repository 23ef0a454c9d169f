/** What the stored record of a machine says about its upgrades, in every run: the
    write-ahead mark, the generation bookkeeping, and what each patch really writes
    given that its base is the snapshot of the reconcile's start. */
module UpgradeRecord {
  import opened Common
  import opened Records
  import opened MachineProtocol
  import opened World
  import opened HostHistory

  predicate SameUpgrade(x: MachineRec, y: MachineRec) {
    && x.upgrade == y.upgrade && x.attemptGeneration == y.attemptGeneration
    && x.appliedRef == y.appliedRef && x.preRebootBoot == y.preRebootBoot
    && x.talosVersion == y.talosVersion
  }

  predicate SameAdoption(x: MachineRec, y: MachineRec) {
    x.ready == y.ready && x.providerID == y.providerID && x.configSHA == y.configSHA
  }

  /** How far a reconcile has come. */
  datatype Stage =
    | Resting | Leaving | Claiming | Adopting
    | Retriggering | Planning | Yielding | Issuing | Issued
    | Polling | Missed | Marking | Evicting
    | Confirming | Mirroring | Linking

  function StageOf(pc: Pc): Stage {
    match pc
    case Idle => Resting
    case ReleaseGet | ReleaseProbe(_, _) | ReleaseReset(_, _) | ReleasePut(_, _, _) | ReleaseFinalizer => Leaving
    case Verify | ClearClaim | HealIP(_) | Select => Claiming
    case CasGet(_, _) | CasPut(_, _, _, _) | CasFinalizer(_, _, _, _) | Record(_, _) => Claiming
    case NeedConfig(need) =>
      if need.ForIssue? then Planning else if need.ForPoll? then Polling else Adopting
    case Preflight | PreflightCluster | PreflightReference | Gate(_) | Apply(_) | Adopt => Adopting
    case Retrigger => Retriggering
    case PreProbe | WriteAhead(_) => Planning
    case GiveUp => Yielding
    case Issue => Issuing
    case Capture | Restart(_) | Stash(_) => Issued
    case PollBoot | PollTag | Fallback | HoldBoot | HoldTag(_) => Polling
    case CountFailure(polling) => if polling then Missed else Planning
    case FailMark => Marking
    case Evict | FailClear => Evicting
    case Completing(via, _) => if via.ByRecord? then Confirming else Polling
    case MirrorGet | MirrorPut(_, _) => Mirroring
    case Link | LinkSave => Linking
  }

  /** What must hold for the node to be linked. */
  predicate Linkable(m: MachineRec) {
    || m.desired == ""
    || (m.upgrade == Failed && !m.ready)
    || (m.upgrade == NoUpgrade && m.appliedRef == m.desired)
  }

  function LastIssue(h: History): nat {
    if h.issues == [] then 0 else Last(h.issues)
  }

  predicate Fresh(b: MachineRec, l: MachineRec) {
    SameUpgrade(b, l) && b.probeFailures == l.probeFailures
  }

  /** The in-memory record l against the snapshot b. */
  predicate Staged(stage: Stage, b: MachineRec, l: MachineRec) {
    match stage
    case Resting | Leaving => true
    case Claiming => Fresh(b, l) && SameAdoption(b, l)
    case Adopting => Fresh(b, l) && SameAdoption(b, l) && l.upgrade != Failed
    case Retriggering => Fresh(b, l) && l.ready && l.upgrade == Failed && l.attemptGeneration != l.generation
    case Planning =>
      && SameUpgrade(b, l.(upgrade := b.upgrade)) && l.ready && l.upgrade == NoUpgrade
      && (b.upgrade == Failed ==> l.attemptGeneration != l.generation && l.probeFailures == 0)
      && (b.upgrade == NoUpgrade ==> !AlreadyApplied(l) && l.probeFailures == b.probeFailures)
      && b.upgrade != InFlight
    case Yielding =>
      && SameUpgrade(b, l.(upgrade := b.upgrade)) && l.ready && l.upgrade == NoUpgrade
      && (b.upgrade == Failed ==> l.attemptGeneration != l.generation)
      && b.upgrade != InFlight
    case Issuing | Issued =>
      l.ready && l.upgrade == InFlight && l.attemptGeneration == l.generation && l.preRebootBoot == 0
    case Polling | Missed => Fresh(b, l) && l.ready && l.upgrade == InFlight
    case Marking => l.ready && l.upgrade == InFlight
    case Evicting => l.ready && l.upgrade == Failed && l.attemptGeneration == l.generation
    case Confirming => SameUpgrade(b, l) && l.ready && l.upgrade == NoUpgrade && AlreadyApplied(l)
    case Mirroring => l.ready && l.upgrade == NoUpgrade && l.appliedRef == l.desired
    case Linking => Linkable(l) && (l.upgrade == InFlight ==> b.probeFailures == l.probeFailures)
  }

  /** The stored record s against the copy l an adopting reconcile works on. */
  predicate Synced(stage: Stage, s: MachineRec, l: MachineRec) {
    stage.Resting? || stage.Leaving? ||
    (&& SameUpgrade(s, l) && SameAdoption(s, l)
     && (stage in {Claiming, Adopting, Retriggering, Planning, Issuing, Issued, Polling, Missed} ==> s.probeFailures == l.probeFailures)
     && l.generation <= s.generation && (l.generation == s.generation ==> l.desired == s.desired)
     && l.attemptGeneration <= l.generation)
  }

  /** The stored record and the calls of upgradeMachine so far. */
  predicate Journal(stage: Stage, s: MachineRec, l: MachineRec, h: History) {
    && Increasing(h.issues) && s.generation > 0
    && LastIssue(h) <= s.attemptGeneration <= s.generation
    && (s.upgrade == NoUpgrade && LastIssue(h) == s.generation ==> s.appliedRef == s.desired)
    && (s.upgrade == InFlight ==> s.ready && s.probeFailures <= h.pollFailures)
    && (stage in {Claiming, Adopting} ==>
          l.upgrade == NoUpgrade && LastIssue(h) == l.generation ==> l.appliedRef == l.desired)
    && (stage in {Planning, Yielding, Issuing} ==> LastIssue(h) < l.generation)
    && (stage.Issued? ==> LastIssue(h) == l.generation)
    && (stage.Missed? ==> l.probeFailures < h.pollFailures)
  }

  predicate UpgradeOk(stage: Stage, s: MachineRec, b: MachineRec, l: MachineRec, h: History) {
    && Journal(stage, s, l, h) && Staged(stage, b, l) && Synced(stage, s, l)
    && (!stage.Resting? && !stage.Leaving? ==> b.generation == l.generation && b.desired == l.desired)
  }

  /** markUpgradeComplete on the dedup path keeps the recorded version. */
  predicate TagKept(a: Actor) {
    a.pc.Completing? && a.pc.via.ByRecord? ==> a.pc.tag == a.local.talosVersion
  }

  predicate BookOk(m: Machine) {
    UpgradeOk(StageOf(m.actor.pc), m.stored, m.actor.base, m.actor.local, m.hist) && TagKept(m.actor)
  }

  // ---------- Acts other than a patch ----------

  lemma DecideStage(b: MachineRec, l: MachineRec, hash: string, s: MachineRec, h: History)
    requires UpgradeOk(Claiming, s, b, l, h)
    ensures UpgradeOk(StageOf(DecidePc(l, hash)), s, b, l, h)
  {
  }

  predicate QuietMove(from: Stage, to: Stage) {
    to == from || to.Resting? || (from.Mirroring? && to.Linking?)
  }

  lemma ClaimStage(u: Uid, spec: MachineSpec, a: Actor, act: Act)
    requires ClaimMove(u, spec, a, act).Some? && !a.pc.Verify?
    ensures QuietMove(StageOf(a.pc), StageOf(ClaimMove(u, spec, a, act).value.pc))
  {
  }

  lemma AdoptStage(spec: MachineSpec, a: Actor, act: Act)
    requires AdoptMove(spec, a, act).Some?
    ensures QuietMove(StageOf(a.pc), StageOf(AdoptMove(spec, a, act).value.pc))
  {
  }

  lemma FinalStage(a: Actor, act: Act)
    requires FinalMove(a, act).Some?
    ensures QuietMove(StageOf(a.pc), StageOf(FinalMove(a, act).value.pc))
  {
  }

  lemma UpgradeStage(a: Actor, act: Act)
    requires UpgradeMove(a, act).Some?
    ensures var from, to := StageOf(a.pc), StageOf(UpgradeMove(a, act).value.pc);
            || (QuietMove(from, to) && !act.Install?)
            || (act.Install? && from.Issuing? && (to.Issued? || to.Marking?))
            || (((act == ReadVersion(NoVersion) && a.pc.Fallback?) || act == ReadBoot(NoBoot)) && from.Polling? && to.Missed?)
  {
  }

  // ---------- Patches ----------

  /** The machine after its reconciler's patch. */
  ghost predicate PatchOk(spec: MachineSpec, s: MachineRec, a: Actor, h: History)
    requires Intended(a).Some?
  {
    var l' := Intended(a).value;
    UpgradeOk(StageOf(AfterPatch(spec, a.pc, l', a.hash)), PatchMachine(s, PatchBase(a), l'), a.base, l', h)
  }

  lemma PatchClear(spec: MachineSpec, s: MachineRec, a: Actor, h: History)
    requires UpgradeOk(Claiming, s, a.base, a.local, h) && a.pc.ClearClaim?
    ensures PatchOk(spec, s, a, h)
  {
  }

  lemma PatchClaimed(spec: MachineSpec, s: MachineRec, a: Actor, h: History)
    requires UpgradeOk(Claiming, s, a.base, a.local, h) && (a.pc.HealIP? || a.pc.Record?)
    ensures PatchOk(spec, s, a, h)
  {
    hide UpgradeOk, PatchMachine, DecidePc;
    var l' := Intended(a).value;
    ClaimedBooks(s, a, h);
    DecideStage(a.base, l', a.hash, PatchMachine(s, a.base, l'), h);
  }

  lemma ClaimedBooks(s: MachineRec, a: Actor, h: History)
    requires UpgradeOk(Claiming, s, a.base, a.local, h) && (a.pc.HealIP? || a.pc.Record?)
    ensures UpgradeOk(Claiming, PatchMachine(s, a.base, Intended(a).value), a.base, Intended(a).value, h)
  {
  }

  lemma PatchAdopted(spec: MachineSpec, s: MachineRec, a: Actor, h: History)
    requires UpgradeOk(Adopting, s, a.base, a.local, h) && a.pc.Adopt?
    ensures PatchOk(spec, s, a, h)
  {
  }

  lemma PatchRetrigger(spec: MachineSpec, s: MachineRec, a: Actor, h: History)
    requires UpgradeOk(Retriggering, s, a.base, a.local, h) && a.pc.Retrigger?
    ensures PatchOk(spec, s, a, h)
  {
  }

  lemma PatchWriteAhead(spec: MachineSpec, s: MachineRec, a: Actor, h: History)
    requires UpgradeOk(Planning, s, a.base, a.local, h) && a.pc.WriteAhead?
    ensures PatchOk(spec, s, a, h)
  {
  }

  lemma PatchStash(spec: MachineSpec, s: MachineRec, a: Actor, h: History)
    requires UpgradeOk(Issued, s, a.base, a.local, h) && a.pc.Stash?
    ensures PatchOk(spec, s, a, h)
  {
  }

  lemma PatchHold(spec: MachineSpec, s: MachineRec, a: Actor, h: History)
    requires UpgradeOk(Polling, s, a.base, a.local, h) && (a.pc.HoldBoot? || a.pc.HoldTag?)
    ensures PatchOk(spec, s, a, h)
  {
  }

  lemma PatchCount(spec: MachineSpec, s: MachineRec, a: Actor, h: History)
    requires UpgradeOk(Planning, s, a.base, a.local, h) && a.pc == CountFailure(false)
    ensures PatchOk(spec, s, a, h)
  {
  }

  lemma PatchPolled(spec: MachineSpec, s: MachineRec, a: Actor, h: History)
    requires UpgradeOk(Missed, s, a.base, a.local, h) && a.pc == CountFailure(true)
    ensures PatchOk(spec, s, a, h)
  {
  }

  lemma PatchGiveUp(spec: MachineSpec, s: MachineRec, a: Actor, h: History)
    requires UpgradeOk(Yielding, s, a.base, a.local, h) && a.pc.GiveUp?
    ensures PatchOk(spec, s, a, h)
  {
  }

  lemma PatchFailed(spec: MachineSpec, s: MachineRec, a: Actor, h: History)
    requires UpgradeOk(Marking, s, a.base, a.local, h) && a.pc.FailMark?
    ensures PatchOk(spec, s, a, h)
  {
  }

  lemma PatchCleared(spec: MachineSpec, s: MachineRec, a: Actor, h: History)
    requires UpgradeOk(Evicting, s, a.base, a.local, h) && a.pc.FailClear?
    ensures PatchOk(spec, s, a, h)
  {
  }

  lemma PatchConfirmed(spec: MachineSpec, s: MachineRec, a: Actor, h: History)
    requires UpgradeOk(Confirming, s, a.base, a.local, h) && a.pc.Completing? && a.pc.via.ByRecord? && TagKept(a)
    ensures PatchOk(spec, s, a, h)
  {
  }

  lemma PatchComplete(spec: MachineSpec, s: MachineRec, a: Actor, h: History)
    requires UpgradeOk(Polling, s, a.base, a.local, h) && a.pc.Completing? && !a.pc.via.ByRecord?
    ensures PatchOk(spec, s, a, h)
  {
  }

  lemma PatchLink(spec: MachineSpec, s: MachineRec, a: Actor, h: History)
    requires UpgradeOk(Linking, s, a.base, a.local, h) && a.pc.LinkSave?
    ensures PatchOk(spec, s, a, h)
  {
  }

  /** Every patch keeps the books. */
  lemma PatchBooks(spec: MachineSpec, s: MachineRec, a: Actor, h: History)
    requires UpgradeOk(StageOf(a.pc), s, a.base, a.local, h) && TagKept(a) && Intended(a).Some?
    ensures PatchOk(spec, s, a, h)
  {
    hide UpgradeOk, PatchMachine, AfterPatch;
    match a.pc
    case ClearClaim => PatchClear(spec, s, a, h);
    case HealIP(_) => PatchClaimed(spec, s, a, h);
    case Record(_, _) => PatchClaimed(spec, s, a, h);
    case Adopt => PatchAdopted(spec, s, a, h);
    case Retrigger => PatchRetrigger(spec, s, a, h);
    case WriteAhead(_) => PatchWriteAhead(spec, s, a, h);
    case Stash(_) => PatchStash(spec, s, a, h);
    case HoldBoot => PatchHold(spec, s, a, h);
    case HoldTag(_) => PatchHold(spec, s, a, h);
    case CountFailure(polling) =>
      if polling {
        PatchPolled(spec, s, a, h);
      } else {
        PatchCount(spec, s, a, h);
      }
    case GiveUp => PatchGiveUp(spec, s, a, h);
    case FailMark => PatchFailed(spec, s, a, h);
    case FailClear => PatchCleared(spec, s, a, h);
    case Completing(via, _) =>
      if via.ByRecord? {
        PatchConfirmed(spec, s, a, h);
      } else {
        PatchComplete(spec, s, a, h);
      }
    case LinkSave => PatchLink(spec, s, a, h);
    case _ =>
  }

  /** The reconcile has retriggered a failure: its snapshot still shows Failed. */
  predicate Retriggered(a: Actor) {
    a.base.upgrade == Failed && a.local.upgrade == NoUpgrade
  }

  /** A patch leaves the store with the in-memory upgrade and adoption, but for two values
      that get lost exactly when the snapshot shows them already: the Failed of GiveUp, and a
      boot-id. */
  ghost predicate PatchSyncs(s: MachineRec, a: Actor)
    requires Intended(a).Some?
  {
    var l', s' := Intended(a).value, PatchMachine(s, PatchBase(a), Intended(a).value);
    && SameUpgrade(s', l'.(upgrade := if a.pc.GiveUp? && Retriggered(a) then NoUpgrade else l'.upgrade,
                           preRebootBoot := if a.pc.Stash? && a.base.preRebootBoot == l'.preRebootBoot then 0
                                            else l'.preRebootBoot))
    && SameAdoption(s', l')
  }

  lemma SyncsBefore(s: MachineRec, a: Actor, h: History)
    requires UpgradeOk(StageOf(a.pc), s, a.base, a.local, h)
    requires a.pc.ClearClaim? || a.pc.HealIP? || a.pc.Record? || a.pc.Adopt? || a.pc.Retrigger? || a.pc.WriteAhead?
    ensures PatchSyncs(s, a)
  {
    hide Journal, AlreadyApplied, Linkable;
  }

  lemma SyncsDuring(s: MachineRec, a: Actor, h: History)
    requires UpgradeOk(StageOf(a.pc), s, a.base, a.local, h)
    requires a.pc.Stash? || a.pc.HoldBoot? || a.pc.HoldTag? || a.pc.CountFailure?
    ensures PatchSyncs(s, a)
  {
    hide Journal, AlreadyApplied, Linkable;
  }

  lemma SyncsFailing(s: MachineRec, a: Actor, h: History)
    requires UpgradeOk(StageOf(a.pc), s, a.base, a.local, h)
    requires a.pc.GiveUp? || a.pc.FailMark? || a.pc.FailClear?
    ensures PatchSyncs(s, a)
  {
    hide Journal, AlreadyApplied, Linkable;
  }

  lemma SyncsAfter(s: MachineRec, a: Actor, h: History)
    requires UpgradeOk(StageOf(a.pc), s, a.base, a.local, h) && TagKept(a)
    requires a.pc.Completing? || a.pc.LinkSave?
    ensures PatchSyncs(s, a)
  {
    hide Journal, AlreadyApplied, Linkable;
  }

  lemma {:induction false} Syncs(s: MachineRec, a: Actor, h: History)
    requires UpgradeOk(StageOf(a.pc), s, a.base, a.local, h) && TagKept(a) && Intended(a).Some?
    ensures PatchSyncs(s, a)
  {
    hide UpgradeOk, PatchMachine, PatchSyncs;
    if a.pc.Completing? || a.pc.LinkSave? {
      SyncsAfter(s, a, h);
    } else if a.pc.GiveUp? || a.pc.FailMark? || a.pc.FailClear? {
      SyncsFailing(s, a, h);
    } else if a.pc.Stash? || a.pc.HoldBoot? || a.pc.HoldTag? || a.pc.CountFailure? {
      SyncsDuring(s, a, h);
    } else {
      SyncsBefore(s, a, h);
    }
  }

  // ---------- Every step ----------

  /** No new call of upgradeMachine, and no failed poll forgotten. */
  predicate Quiet(h: History, h': History) {
    h'.issues == h.issues && h.pollFailures <= h'.pollFailures
  }

  lemma QuietKeeps(from: Stage, to: Stage, s: MachineRec, b: MachineRec, l: MachineRec, h: History, h': History)
    requires UpgradeOk(from, s, b, l, h) && QuietMove(from, to) && Quiet(h, h')
    ensures UpgradeOk(to, s, b, l, h')
  {
  }

  lemma MissedKeeps(s: MachineRec, b: MachineRec, l: MachineRec, h: History, h': History)
    requires UpgradeOk(Polling, s, b, l, h)
    requires h'.issues == h.issues && h'.pollFailures == h.pollFailures + 1
    ensures UpgradeOk(Missed, s, b, l, h')
  {
  }

  lemma IncreasingSnoc(s: seq<nat>, x: nat)
    requires Increasing(s) && (s == [] || Last(s) < x)
    ensures Increasing(s + [x])
  {
  }

  lemma IssueKeeps(to: Stage, s: MachineRec, b: MachineRec, l: MachineRec, h: History, h': History)
    requires UpgradeOk(Issuing, s, b, l, h) && (to.Issued? || to.Marking?)
    requires h'.issues == h.issues + [l.generation] && h'.pollFailures == h.pollFailures
    ensures UpgradeOk(to, s, b, l, h')
  {
    IncreasingSnoc(h.issues, l.generation);
    assert LastIssue(h') == l.generation;
  }

  lemma HistoryBooks(hosts: map<HostName, Host>, m: Machine, act: Act)
    ensures var h, h', pc := m.hist, HistoryAfter(hosts, m, act), m.actor.pc;
            && h'.issues == (if act.Install? then h.issues + [m.actor.local.generation] else h.issues)
            && h'.pollFailures ==
                 (if act.Patch? && pc.WriteAhead? then 0
                  else if (act == ReadVersion(NoVersion) && pc.Fallback?) || act == ReadBoot(NoBoot) then h.pollFailures + 1
                  else h.pollFailures)
  {
  }

  lemma StartBooks(hosts: map<HostName, Host>, u: Uid, m: Machine, m': Machine, act: Act)
    requires BookOk(m) && (act.Start? || act.StartDelete?)
    requires Move(u, m.spec, m.actor, act) == Some(m'.actor) && Possible(hosts, m, act)
    requires m'.stored == StoredAfter(m, act) && m'.hist == HistoryAfter(hosts, m, act)
    ensures BookOk(m')
  {
  }

  lemma ResetPolls(spec: MachineSpec, s: MachineRec, a: Actor, h: History, h': History)
    requires Intended(a).Some? && PatchOk(spec, s, a, h)
    requires h'.issues == h.issues && (h'.pollFailures == h.pollFailures || (a.pc.WriteAhead? && h'.pollFailures == 0))
    requires a.pc.WriteAhead? ==> PatchMachine(s, PatchBase(a), Intended(a).value).probeFailures == 0
    ensures PatchOk(spec, s, a, h')
  {
    hide PatchMachine, Intended;
  }

  lemma WriteAheadClears(s: MachineRec, a: Actor, h: History)
    requires UpgradeOk(StageOf(a.pc), s, a.base, a.local, h) && a.pc.WriteAhead?
    ensures PatchMachine(s, PatchBase(a), Intended(a).value).probeFailures == 0
  {
  }

  lemma PatchKeepsTag(spec: MachineSpec, pc: Pc, m: MachineRec, hash: string)
    ensures var pc' := AfterPatch(spec, pc, m, hash); pc'.Completing? ==> pc'.tag == m.talosVersion
  {
  }

  lemma PatchStepBooks(hosts: map<HostName, Host>, u: Uid, m: Machine, m': Machine, act: Act)
    requires BookOk(m) && act.Patch?
    requires Move(u, m.spec, m.actor, act) == Some(m'.actor)
    requires m'.stored == StoredAfter(m, act) && m'.hist == HistoryAfter(hosts, m, act)
    ensures BookOk(m')
  {
    hide UpgradeOk, PatchMachine, Intended, AfterPatch, HistoryAfter;
    PatchBooks(m.spec, m.stored, m.actor, m.hist);
    HistoryBooks(hosts, m, act);
    if m.actor.pc.WriteAhead? {
      WriteAheadClears(m.stored, m.actor, m.hist);
    }
    ResetPolls(m.spec, m.stored, m.actor, m.hist, m'.hist);
    PatchKeepsTag(m.spec, m.actor.pc, act.self, m.actor.hash);
  }

  lemma VerifyBooks(u: Uid, m: Machine, m': Machine, act: Act)
    requires BookOk(m) && act.ReadHost? && m.actor.pc.Verify?
    requires ClaimMove(u, m.spec, m.actor, act) == Some(m'.actor)
    requires m'.stored == m.stored && Quiet(m.hist, m'.hist)
    ensures BookOk(m')
  {
    DecideStage(m.actor.base, m.actor.local, m.actor.hash, m.stored, m.hist);
    var to := StageOf(m'.actor.pc);
    assert UpgradeOk(to, m.stored, m.actor.base, m.actor.local, m.hist);
    QuietKeeps(to, to, m.stored, m.actor.base, m.actor.local, m.hist, m'.hist);
  }

  /** No RPC answer leads to the dedup completion. */
  lemma TagKeptByAct(u: Uid, spec: MachineSpec, a: Actor, act: Act)
    requires Move(u, spec, a, act).Some? && TagKept(a)
    requires !act.Start? && !act.StartDelete? && !act.Patch?
    ensures TagKept(Move(u, spec, a, act).value)
  {
  }

  lemma StageMoves(u: Uid, spec: MachineSpec, a: Actor, act: Act)
    requires Move(u, spec, a, act).Some? && !a.pc.Verify?
    requires !act.Start? && !act.StartDelete? && !act.Patch?
    ensures var from, to := StageOf(a.pc), StageOf(Move(u, spec, a, act).value.pc);
            || (QuietMove(from, to) && !act.Install?)
            || (act.Install? && from.Issuing? && (to.Issued? || to.Marking?))
            || (((act == ReadVersion(NoVersion) && a.pc.Fallback?) || act == ReadBoot(NoBoot)) && from.Polling? && to.Missed?)
  {
    hide StageOf, QuietMove, ClaimMove, AdoptMove, FinalMove, UpgradeMove;
    if ClaimAct(act) {
      ClaimStage(u, spec, a, act);
    } else if AdoptAct(act) {
      AdoptStage(spec, a, act);
    } else if UpgradeAct(act) {
      UpgradeStage(a, act);
    } else {
      FinalStage(a, act);
    }
  }

  lemma RpcBooks(hosts: map<HostName, Host>, u: Uid, m: Machine, m': Machine, act: Act)
    requires BookOk(m) && !act.Start? && !act.StartDelete? && !act.Patch? && !m.actor.pc.Verify?
    requires Move(u, m.spec, m.actor, act) == Some(m'.actor)
    requires m'.stored == StoredAfter(m, act) && m'.hist == HistoryAfter(hosts, m, act)
    ensures BookOk(m')
  {
    hide UpgradeOk, Move, StageOf, HistoryAfter, QuietMove;
    var from, to := StageOf(m.actor.pc), StageOf(m'.actor.pc);
    StageMoves(u, m.spec, m.actor, act);
    LocalMove(u, m.spec, m.actor, act);
    TagKeptByAct(u, m.spec, m.actor, act);
    HistoryBooks(hosts, m, act);
    UnfinalizedBooks(from, m.stored, m.actor.base, m.actor.local, m.hist);
    if act.Install? {
      IssueKeeps(to, m'.stored, m.actor.base, m.actor.local, m.hist, m'.hist);
    } else if QuietMove(from, to) {
      QuietKeeps(from, to, m'.stored, m.actor.base, m.actor.local, m.hist, m'.hist);
    } else {
      MissedKeeps(m'.stored, m.actor.base, m.actor.local, m.hist, m'.hist);
    }
  }

  lemma UnfinalizedBooks(stage: Stage, s: MachineRec, b: MachineRec, l: MachineRec, h: History)
    requires UpgradeOk(stage, s, b, l, h)
    ensures UpgradeOk(stage, s.(finalizer := false), b, l, h)
  {
  }

  lemma OwnBooks(hosts: map<HostName, Host>, u: Uid, m: Machine, m': Machine, act: Act)
    requires BookOk(m) && Possible(hosts, m, act)
    requires Move(u, m.spec, m.actor, act) == Some(m'.actor)
    requires m'.stored == StoredAfter(m, act) && m'.hist == HistoryAfter(hosts, m, act)
    ensures BookOk(m')
  {
    hide BookOk, StoredAfter, HistoryAfter, Possible, ClaimMove, AdoptMove, UpgradeMove, FinalMove;
    if act.Start? || act.StartDelete? {
      StartBooks(hosts, u, m, m', act);
    } else if act.Patch? {
      PatchStepBooks(hosts, u, m, m', act);
    } else if m.actor.pc.Verify? {
      VerifyStep(hosts, u, m, m', act);
    } else {
      RpcBooks(hosts, u, m, m', act);
    }
  }

  lemma VerifyStep(hosts: map<HostName, Host>, u: Uid, m: Machine, m': Machine, act: Act)
    requires BookOk(m) && m.actor.pc.Verify? && !act.Start? && !act.StartDelete? && !act.Patch?
    requires Move(u, m.spec, m.actor, act) == Some(m'.actor)
    requires m'.stored == StoredAfter(m, act) && m'.hist == HistoryAfter(hosts, m, act)
    ensures BookOk(m')
  {
    hide BookOk;
    assert act.ReadHost? || act.Abort?;
    HistoryBooks(hosts, m, act);
    if act.ReadHost? {
      VerifyBooks(u, m, m', act);
    } else {
      AbortBooks(m, m');
    }
  }

  lemma AbortBooks(m: Machine, m': Machine)
    requires BookOk(m) && m'.actor == m.actor.(pc := Idle) && m'.stored == m.stored && m'.hist == m.hist
    ensures BookOk(m')
  {
  }

  /** A spec edit either changes nothing that matters or bumps the generation past every
      attempt. */
  lemma EditBooks(m: Machine, m': Machine)
    requires BookOk(m) && m'.actor == m.actor && m'.hist == m.hist && SpecEdit(m.stored, m'.stored)
    ensures BookOk(m')
  {
  }

  ghost predicate Booked(w: World) {
    forall u :: u in w.machines ==> BookOk(w.machines[u])
  }

  lemma BookedStep(w: World, step: Step)
    requires Booked(w) && Next(w, step).Some?
    ensures Booked(Next(w, step).value)
  {
    hide Next, BookOk, SpecEdit, Move, Possible, HistoryAfter, StoredAfter, HostsAfter;
    var w' := Next(w, step).value;
    StepKeepsMachines(w, step);
    forall u | u in w'.machines
      ensures BookOk(w'.machines[u])
    {
      if step.MachineStep? && step.u == u {
        OwnStep(w, u, step.act);
        OwnBooks(w.hosts, u, w.machines[u], w'.machines[u], step.act);
      } else {
        OthersStep(w, step, u);
        EditBooks(w.machines[u], w'.machines[u]);
      }
    }
  }

  lemma InitBooked(w: World)
    requires Init(w)
    ensures Booked(w)
  {
  }

  lemma {:induction false} BookedAlways(w: World, log: seq<Step>)
    requires Init(w) && Play(w, log).Some?
    ensures Booked(Play(w, log).value)
  {
    hide Init, Booked, Next;
    if log == [] {
      InitBooked(w);
    } else {
      BookedAlways(w, log[..|log| - 1]);
      BookedStep(Play(w, log[..|log| - 1]).value, Last(log));
    }
  }
}
