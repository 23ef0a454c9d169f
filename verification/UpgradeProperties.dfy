/** What a run guarantees about upgrades, failed upgrades and node links. */
module UpgradeProperties {
  import opened Common
  import opened Records
  import opened HostProtocol
  import opened MachineProtocol
  import opened World
  import opened HostHistory
  import opened Ownership
  import opened UpgradeRecord
  import opened Attempts
  import opened Reconciles
  import opened ClaimProperties
  import opened ResolvedHosts

  // ---------- In every run ----------

  lemma {:induction false} IssuesAreInstalls(first: World, log: seq<Step>, w: World, u: Uid)
    requires Ran(first, log, w) && u in w.machines
    ensures w.machines[u].hist.issues == Installs(first, log, u)
  {
    hide Init, Next, Move, HistoryAfter, HostsAfter, StoredAfter, SpecEdit, Possible;
    if log == [] {
      NoIssuesYet(w, u);
    } else {
      var earlier, step := log[..|log| - 1], Last(log);
      var before := Play(first, earlier).value;
      StepKeepsMachines(before, step);
      IssuesAreInstalls(first, earlier, before, u);
      if step.MachineStep? && step.u == u {
        OwnStep(before, u, step.act);
        HistoryBooks(before.hosts, before.machines[u], step.act);
      } else {
        OthersStep(before, step, u);
      }
    }
  }

  lemma NoIssuesYet(w: World, u: Uid)
    requires Init(w) && u in w.machines
    ensures w.machines[u].hist.issues == []
  {
  }

  lemma {:induction false} BookOf(first: World, log: seq<Step>, w: World, u: Uid)
    requires Ran(first, log, w) && u in w.machines
    ensures BookOk(w.machines[u])
  {
    hide Init, Next, BookOk;
    BookedAlways(first, log);
  }

  /** With crashes anywhere, upgradeMachine is called at most once per generation, in the
      order of the generations. */
  lemma {:induction false} InstallOncePerGeneration(first: World, log: seq<Step>, w: World, u: Uid)
    requires Ran(first, log, w) && u in w.machines
    ensures Increasing(Installs(first, log, u))
  {
    hide Init, Next;
    IssuesAreInstalls(first, log, w, u);
    BookOf(first, log, w, u);
  }

  /** At each call the stored record already says so. */
  lemma {:induction false} InstallIsWrittenAhead(first: World, log: seq<Step>, w: World, u: Uid, result: InstallAnswer)
    requires Ran(first, log, w) && Next(w, MachineStep(u, Install(result))).Some?
    ensures u in w.machines
    ensures var s, l := w.machines[u].stored, w.machines[u].actor.local;
            && s.upgrade == InFlight && s.ready && s.preRebootBoot == 0
            && s.attemptGeneration == l.generation <= s.generation
            && (forall g :: g in Installs(first, log, u) ==> g < l.generation)
  {
    hide Init, Next, Move, Possible, HostsAfter, StoredAfter, HistoryAfter;
    OwnStep(w, u, Install(result));
    BookOf(first, log, w, u);
    InstallPc(u, w.machines[u].spec, w.machines[u].actor, result);
    IssuesAreInstalls(first, log, w, u);
    BelowLast(w.machines[u].hist.issues);
  }

  lemma BelowLast(s: seq<nat>)
    requires Increasing(s)
    ensures forall x :: x in s ==> x <= Last(s)
  {
  }

  lemma InstallPc(u: Uid, spec: MachineSpec, a: Actor, result: InstallAnswer)
    requires Move(u, spec, a, Install(result)).Some?
    ensures a.pc.Issue?
  {
  }

  lemma {:induction false} PollsAreCounted(first: World, log: seq<Step>, w: World, u: Uid)
    requires Ran(first, log, w) && u in w.machines
    ensures w.machines[u].hist.pollFailures == FailedPolls(first, log, u)
  {
    hide Init, Next, Move, HistoryAfter, HostsAfter, StoredAfter, SpecEdit, Possible;
    if log == [] {
      NoPollsYet(w, u);
    } else {
      var earlier, step := log[..|log| - 1], Last(log);
      var before := Play(first, earlier).value;
      StepKeepsMachines(before, step);
      PollsAreCounted(first, earlier, before, u);
      if step.MachineStep? && step.u == u {
        OwnStep(before, u, step.act);
        HistoryBooks(before.hosts, before.machines[u], step.act);
      } else {
        OthersStep(before, step, u);
      }
    }
  }

  lemma NoPollsYet(w: World, u: Uid)
    requires Init(w) && u in w.machines
    ensures w.machines[u].hist.pollFailures == 0
  {
  }

  /** An upgrade in flight fails by polling only after at least the threshold of failed
      polls since it was written ahead. */
  lemma {:induction false} FailsOnlyAfterThreshold(first: World, log: seq<Step>, w: World, u: Uid, self: MachineRec, w': World)
    requires Ran(first, log, w) && u in w.machines && w.machines[u].actor.pc == CountFailure(true)
    requires Next(w, MachineStep(u, Patch(self))) == Some(w') && u in w'.machines && w'.machines[u].actor.pc.FailMark?
    ensures w.machines[u].spec.upgradeThreshold <= FailedPolls(first, log, u)
  {
    hide Init, Next, Possible, PatchMachine, HostsAfter, StoredAfter, HistoryAfter, BookOk;
    OwnStep(w, u, Patch(self));
    BookOf(first, log, w, u);
    MissedPolls(w.machines[u]);
    PollsAreCounted(first, log, w, u);
  }

  lemma MissedPolls(m: Machine)
    requires BookOk(m) && m.actor.pc == CountFailure(true)
    ensures m.actor.local.probeFailures < m.hist.pollFailures
  {
    hide Staged, Synced;
  }

  /** The measure of polling: a failed probe raises the stored count by one and stops at
      the threshold, unless its reconcile has just retriggered a failure whose count was one:
      then the patch is computed against that one and the count stays. */
  lemma {:induction false} FailureIsCounted(first: World, log: seq<Step>, w: World, u: Uid, self: MachineRec, w': World)
    requires Ran(first, log, w) && u in w.machines && w.machines[u].actor.pc.CountFailure?
    requires Next(w, MachineStep(u, Patch(self))) == Some(w') && u in w'.machines
    ensures var m, m' := w.machines[u], w'.machines[u];
            var threshold := if m.actor.pc.polling then m.spec.upgradeThreshold else m.spec.versionThreshold;
            && (m'.stored.probeFailures == m.stored.probeFailures + 1 <==>
                !(Retriggered(m.actor) && m.actor.base.probeFailures == 1))
            && (m'.actor.pc.Idle? <==> m.stored.probeFailures + 1 < threshold)
            && (!m'.actor.pc.Idle? ==> m'.actor.pc.FailMark? || m'.actor.pc.GiveUp?)
  {
    hide Init, Next, Possible, HostsAfter, HistoryAfter, PatchMachine, BookOk, ClaimMove, AdoptMove, UpgradeMove, FinalMove;
    OwnStep(w, u, Patch(self));
    BookOf(first, log, w, u);
    CountedRecord(w.machines[u]);
  }

  lemma CountedRecord(m: Machine)
    requires BookOk(m) && m.actor.pc.CountFailure?
    ensures m.stored.probeFailures == m.actor.local.probeFailures
    ensures PatchMachine(m.stored, PatchBase(m.actor), Intended(m.actor).value).probeFailures == m.stored.probeFailures + 1 <==>
            !(Retriggered(m.actor) && m.actor.base.probeFailures == 1)
  {
    hide Journal, AlreadyApplied, Linkable, SameAdoption;
  }

  /** Past the threshold only a crash keeps the reconcile from storing Failed, unless it
      has just retriggered a failure: GiveUp then patches nothing. */
  lemma {:induction false} ThresholdStoresFailed(first: World, log: seq<Step>, w: World, u: Uid, act: Act, w': World)
    requires Ran(first, log, w) && u in w.machines && (w.machines[u].actor.pc.FailMark? || w.machines[u].actor.pc.GiveUp?)
    requires Next(w, MachineStep(u, act)) == Some(w') && u in w'.machines && !act.Abort?
    ensures act.Patch?
    ensures w'.machines[u].stored.upgrade == Failed <==> !(w.machines[u].actor.pc.GiveUp? && Retriggered(w.machines[u].actor))
  {
    hide Init, Next, Possible, HostsAfter, HistoryAfter, PatchMachine, BookOk, Move, Intended;
    OwnStep(w, u, act);
    BookOf(first, log, w, u);
    FailsByPatch(u, w.machines[u].spec, w.machines[u].actor, act);
    FailedRecord(w.machines[u]);
  }

  lemma FailsByPatch(u: Uid, spec: MachineSpec, a: Actor, act: Act)
    requires Move(u, spec, a, act).Some? && (a.pc.FailMark? || a.pc.GiveUp?) && !act.Abort?
    ensures act.Patch? && Intended(a) == Some(act.self)
  {
    hide AfterPatch;
  }

  lemma FailedRecord(m: Machine)
    requires BookOk(m) && (m.actor.pc.FailMark? || m.actor.pc.GiveUp?)
    ensures PatchMachine(m.stored, PatchBase(m.actor), Intended(m.actor).value).upgrade == Failed <==>
            !(m.actor.pc.GiveUp? && Retriggered(m.actor))
  {
    hide Journal, AlreadyApplied, Linkable, SameAdoption;
  }

  /** What a patch does to the count of an upgrade in flight. */
  predicate Counts(s: MachineRec, a: Actor)
    requires Intended(a).Some?
  {
    var s' := PatchMachine(s, PatchBase(a), Intended(a).value);
    s'.upgrade == InFlight ==>
      && s'.probeFailures == (if a.pc.WriteAhead? || a.pc.HoldTag? then 0
                              else if a.pc == CountFailure(true) then s.probeFailures + 1
                              else s.probeFailures)
      && (!a.pc.WriteAhead? ==> s.upgrade == InFlight)
  }

  lemma CountsByPoll(s: MachineRec, a: Actor, h: History)
    requires UpgradeOk(StageOf(a.pc), s, a.base, a.local, h)
    requires a.pc.WriteAhead? || a.pc.HoldTag? || a.pc.CountFailure? || a.pc.HoldBoot? || a.pc.Stash?
    ensures Counts(s, a)
  {
    hide Journal, Linkable, AlreadyApplied, SameAdoption;
  }

  lemma CountsByClaim(s: MachineRec, a: Actor, h: History)
    requires UpgradeOk(StageOf(a.pc), s, a.base, a.local, h) && Intended(a).Some?
    requires a.pc.ClearClaim? || a.pc.HealIP? || a.pc.Record? || a.pc.Adopt? || a.pc.LinkSave?
    ensures Counts(s, a)
  {
    hide Journal, Linkable, AlreadyApplied, SameAdoption;
  }

  lemma CountsByEnd(s: MachineRec, a: Actor, h: History)
    requires UpgradeOk(StageOf(a.pc), s, a.base, a.local, h) && Intended(a).Some?
    requires a.pc.Retrigger? || a.pc.GiveUp? || a.pc.FailMark? || a.pc.FailClear? || a.pc.Completing?
    ensures Counts(s, a)
  {
    hide Journal, Linkable, AlreadyApplied, SameAdoption;
  }

  lemma CountByPatch(s: MachineRec, a: Actor, h: History)
    requires UpgradeOk(StageOf(a.pc), s, a.base, a.local, h) && Intended(a).Some?
    ensures Counts(s, a)
  {
    hide UpgradeOk, Counts;
    if a.pc.WriteAhead? || a.pc.HoldTag? || a.pc.CountFailure? || a.pc.HoldBoot? || a.pc.Stash? {
      CountsByPoll(s, a, h);
    } else if a.pc.Retrigger? || a.pc.GiveUp? || a.pc.FailMark? || a.pc.FailClear? || a.pc.Completing? {
      CountsByEnd(s, a, h);
    } else {
      CountsByClaim(s, a, h);
    }
  }

  lemma CountByAnswer(hosts: map<HostName, Host>, m: Machine, act: Act)
    requires !act.Patch? && Possible(hosts, m, act)
    ensures StoredAfter(m, act).probeFailures == m.stored.probeFailures && StoredAfter(m, act).upgrade == m.stored.upgrade
  {
  }

  /** While an upgrade is in flight the stored count is the number of failed polls patched in
      a row. */
  lemma {:induction false} CountIsStored(first: World, log: seq<Step>, w: World, u: Uid)
    requires Ran(first, log, w) && u in w.machines && w.machines[u].stored.upgrade == InFlight
    ensures w.machines[u].stored.probeFailures == CountedPolls(first, log, u)
  {
    hide Init, Next, Move, HistoryAfter, HostsAfter, Possible, UpgradeOk, PatchMachine, Intended, AfterPatch;
    if log == [] {
      NotInFlightYet(w, u);
    } else {
      var earlier, step := log[..|log| - 1], Last(log);
      var before := Play(first, earlier).value;
      StepKeepsMachines(before, step);
      BookOf(first, earlier, before, u);
      var m := before.machines[u];
      if step.MachineStep? && step.u == u {
        OwnStep(before, u, step.act);
        if step.act.Patch? {
          PatchIntended(u, m.spec, m.actor, step.act);
          CountByPatch(m.stored, m.actor, m.hist);
        } else {
          CountByAnswer(before.hosts, m, step.act);
        }
      } else {
        OthersStep(before, step, u);
      }
      if m.stored.upgrade == InFlight {
        CountIsStored(first, earlier, before, u);
      }
    }
  }

  lemma NotInFlightYet(w: World, u: Uid)
    requires Init(w) && u in w.machines
    ensures var m := w.machines[u]; m.stored.upgrade == NoUpgrade && m.actor.pc.Idle? && !m.hist.emptyTag
  {
  }

  /** An upgrade in flight goes on to fail by polling exactly when the poll just counted makes
      the threshold of failed polls in a row. */
  lemma {:induction false} PollingStops(first: World, log: seq<Step>, w: World, u: Uid, self: MachineRec, w': World)
    requires Ran(first, log, w) && u in w.machines && w.machines[u].actor.pc == CountFailure(true)
    requires Next(w, MachineStep(u, Patch(self))) == Some(w') && u in w'.machines
    ensures w'.machines[u].actor.pc.FailMark? <==> w.machines[u].spec.upgradeThreshold <= CountedPolls(first, log, u) + 1
    ensures !w'.machines[u].actor.pc.FailMark? ==> w'.machines[u].actor.pc.Idle?
  {
    hide Init, Next, UpgradeOk, PatchMachine;
    FailureIsCounted(first, log, w, u, self, w');
    BookOf(first, log, w, u);
    MissedInFlight(w.machines[u]);
    CountIsStored(first, log, w, u);
    OwnStep(w, u, Patch(self));
  }

  lemma MissedInFlight(m: Machine)
    requires BookOk(m) && m.actor.pc == CountFailure(true)
    ensures m.stored.upgrade == InFlight
  {
    hide Journal;
  }

  // ---------- A failed upgrade ----------

  predicate Evicted(s: MachineRec) {
    s.upgrade == Failed && !s.ready
  }

  lemma EvictedAct(hosts: map<HostName, Host>, u: Uid, m: Machine, m': Machine, act: Act)
    requires Acted(hosts, u, m, m', act) && BookOk(m) && Evicted(m.stored)
    ensures Evicted(m'.stored) && !act.ApplyConfig? && !act.Install?
  {
    hide UpgradeOk, PatchMachine, HostsAfter, HistoryAfter, AfterPatch, ClaimMove, FinalMove, Intended;
    NoApplyWhileFailed(m);
    if act.Patch? {
      Syncs(m.stored, m.actor, m.hist);
      EvictedPatches(m);
    } else {
      FailureByPatch(m, act);
    }
  }

  lemma EvictedPatches(m: Machine)
    requires BookOk(m) && Evicted(m.stored) && Intended(m.actor).Some? && PatchSyncs(m.stored, m.actor)
    requires StageOf(m.actor.pc) in {Resting, Leaving, Claiming, Linking}
    ensures Evicted(PatchMachine(m.stored, PatchBase(m.actor), Intended(m.actor).value))
  {
    hide PatchMachine, Journal;
  }

  lemma EvictedStep(w: World, step: Step, u: Uid)
    requires Booked(w) && Next(w, step).Some? && u in w.machines && Evicted(w.machines[u].stored)
    ensures u in Next(w, step).value.machines && Evicted(Next(w, step).value.machines[u].stored)
    ensures step.MachineStep? && step.u == u ==> !step.act.ApplyConfig? && !step.act.Install?
  {
    hide Next, Move, Possible, HostsAfter, StoredAfter, HistoryAfter, BookOk;
    if step.MachineStep? && step.u == u {
      OwnStep(w, u, step.act);
      EvictedAct(w.hosts, u, w.machines[u], Next(w, step).value.machines[u], step.act);
    } else {
      OthersStep(w, step, u);
    }
  }

  predicate NoApply(log: seq<Step>, u: Uid) {
    forall i :: 0 <= i < |log| && log[i].MachineStep? && log[i].u == u ==> !log[i].act.ApplyConfig? && !log[i].act.Install?
  }

  /** Failed with Ready cleared is for ever: whatever the operator edits, no later reconcile
      of this machine applies a config or calls upgradeMachine. */
  lemma {:induction false} FailedForGood(first: World, log: seq<Step>, w: World, u: Uid, more: seq<Step>)
    requires Ran(first, log, w) && u in w.machines && Evicted(w.machines[u].stored)
    requires Play(w, more).Some?
    ensures u in Play(w, more).value.machines && Evicted(Play(w, more).value.machines[u].stored)
    ensures NoApply(more, u)
  {
    hide Init, Next, Evicted, Booked;
    if more != [] {
      var before := more[..|more| - 1];
      FailedForGood(first, log, w, u, before);
      PlayOn(first, log, w, before);
      BookedAlways(first, log + before);
      EvictedStep(Play(w, before).value, Last(more), u);
    }
  }

  lemma {:induction false} PlayOn(first: World, log: seq<Step>, w: World, more: seq<Step>)
    requires Play(first, log) == Some(w)
    ensures Play(first, log + more) == Play(w, more)
  {
    hide Next;
    if more == [] {
      assert log + more == log;
    } else {
      PlayOn(first, log, w, more[..|more| - 1]);
      assert (log + more)[..|log + more| - 1] == log + more[..|more| - 1];
    }
  }

  /** Such a machine's host was wiped and stays claimed and free of any applied config,
      until the machine is released. */
  lemma {:induction false} EvictionHolds(first: World, log: seq<Step>, w: World, u: Uid)
    requires Ran(first, log, w) && NothingStolen(first, log) && u in w.machines
    requires !w.machines[u].hist.released && Evicted(w.machines[u].stored)
    ensures var host := w.machines[u].hist.evicted;
            host.Some? && Owns(w.hosts, host.value, u) && Owner(w.hosts[host.value].config).None?
  {
    hide Init, Next, Followed, BookOk;
    FollowedAlways(first, log);
    FollowedMachine(w, u);
    assert Holds(w.machines[u], w.machines[u].hist.evicted.value);
  }

  /** A release that stores Available found the host in maintenance and did not reset it;
      any other release stores Releasing after a reset. */
  lemma {:induction false} ReleaseResetsOnce(first: World, log: seq<Step>, w: World, step: Step, name: HostName)
    requires Ran(first, log, w) && Next(w, step).Some? && ReleaseWrite(w, step, name)
    ensures var acts, phase := Acts(log, step.u), step.act.rec.phase;
            if phase == Available then ProbeMaintenance(true) in acts && NoReset(acts)
            else phase == Releasing && Reset(true) in acts
  {
    hide Init, Next, Evident, Recorded, Possible, HostsAfter, HistoryAfter;
    EvidentAlways(first, log, w);
    EvidentFor(log, w, step.u, name);
    RecordedAlways(first, log);
    OwnStep(w, step.u, step.act);
    ReleasePhases(w, step.u);
  }

  // ---------- A completed upgrade ----------

  /** While InFlight, a stored boot-id is that of a boot in which this attempt's install was
      already over. */
  lemma {:induction false} BootIdIsAfterInstall(first: World, log: seq<Step>, w: World, u: Uid)
    requires Ran(first, log, w) && NothingStolen(first, log) && u in w.machines && !w.machines[u].hist.released
    requires w.machines[u].stored.upgrade == InFlight && w.machines[u].stored.preRebootBoot != 0
    ensures var m := w.machines[u];
            && m.hist.attempt.Some? && m.hist.attempt.value.installed.Some? && m.hist.attempt.value.host in w.hosts
            && var t, h := m.hist.attempt.value, w.hosts[m.hist.attempt.value.host];
            && t.installed.value < m.stored.preRebootBoot <= h.boot + 1
            && h.installBoot == t.installed.value && h.image == t.ref
  {
    hide Init, Next, Followed, BookOk, OwnershipOk;
    FollowedAlways(first, log);
    FollowedMachine(w, u);
  }

  // ---- the host of the attempt ----

  lemma WriteAheadLeads(spec: MachineSpec, pc: Pc, m: MachineRec, hash: string)
    ensures !AfterPatch(spec, pc, m, hash).WriteAhead?
  {
  }

  /** The write-ahead follows the version probe. */
  lemma ProbedBefore(u: Uid, spec: MachineSpec, a: Actor, act: Act)
    requires Move(u, spec, a, act).Some? && Move(u, spec, a, act).value.pc.WriteAhead?
    ensures a.pc.PreProbe? && act.ReadVersion? && act.answer.Tag?
    ensures Move(u, spec, a, act).value.local == a.local
  {
    hide LeastCandidate, AfterPatch;
    if act.Patch? {
      WriteAheadLeads(spec, a.pc, act.self, a.hash);
    }
  }

  lemma ProbedHost(hosts: map<HostName, Host>, m: Machine, act: Act)
    requires m.actor.pc.PreProbe? && act.ReadVersion? && act.answer.Tag? && Possible(hosts, m, act)
    ensures var t := HistoryAfter(hosts, m, act).attempt; t.Some? && t.value.host == Target(m.actor)
  {
  }

  lemma HostOfAttempt(hosts: map<HostName, Host>, m: Machine, act: Act)
    requires !(act.ReadVersion? && m.actor.pc.PreProbe?)
    ensures var t, t' := m.hist.attempt, HistoryAfter(hosts, m, act).attempt;
            t'.Some? == t.Some? && (t.Some? ==> t'.value.host == t.value.host)
  {
  }

  lemma NotWhileProbing(m: Machine)
    requires BookOk(m) && m.actor.pc.PreProbe?
    ensures m.stored.upgrade != InFlight
  {
    hide Journal;
  }

  lemma AttemptHosts(hosts: map<HostName, Host>, u: Uid, m: Machine, m': Machine, act: Act, issued: HostName)
    requires Acted(hosts, u, m, m', act) && BookOk(m)
    requires m.actor.pc.WriteAhead? ==> m.hist.attempt.Some? && m.hist.attempt.value.host == Target(m.actor)
    requires m.stored.upgrade == InFlight ==> m.hist.attempt.Some? && m.hist.attempt.value.host == issued
    ensures m'.actor.pc.WriteAhead? ==> m'.hist.attempt.Some? && m'.hist.attempt.value.host == Target(m'.actor)
    ensures m'.stored.upgrade == InFlight ==>
              && m'.hist.attempt.Some?
              && m'.hist.attempt.value.host == if act.Patch? && m.actor.pc.WriteAhead? then Target(m.actor) else issued
  {
    hide Move, Possible, HostsAfter, HistoryAfter, StoredAfter, BookOk, PatchMachine, Intended;
    if m'.actor.pc.WriteAhead? {
      ProbedBefore(u, m.spec, m.actor, act);
      ProbedHost(hosts, m, act);
    }
    if act.ReadVersion? && m.actor.pc.PreProbe? {
      NotWhileProbing(m);
    } else {
      HostOfAttempt(hosts, m, act);
    }
    if m'.stored.upgrade == InFlight {
      FlightByPatch(hosts, u, m, m', act);
    }
  }

  lemma FlightByPatch(hosts: map<HostName, Host>, u: Uid, m: Machine, m': Machine, act: Act)
    requires Acted(hosts, u, m, m', act) && BookOk(m) && m'.stored.upgrade == InFlight
    ensures m.stored.upgrade == InFlight || (act.Patch? && m.actor.pc.WriteAhead?)
  {
    hide Move, HostsAfter, HistoryAfter, PatchMachine, Intended, UpgradeOk;
    if act.Patch? {
      PatchIntended(u, m.spec, m.actor, act);
      CountByPatch(m.stored, m.actor, m.hist);
    } else {
      CountByAnswer(hosts, m, act);
    }
  }

  /** While an upgrade is in flight its attempt is on the host it was written ahead on. */
  lemma {:induction false} IssuedHost(first: World, log: seq<Step>, w: World, u: Uid)
    requires Ran(first, log, w) && u in w.machines
    ensures var m := w.machines[u];
            && (m.actor.pc.WriteAhead? ==> m.hist.attempt.Some? && m.hist.attempt.value.host == Target(m.actor))
            && (m.stored.upgrade == InFlight ==>
                  m.hist.attempt.Some? && m.hist.attempt.value.host == IssuedOn(first, log, u))
  {
    hide Init, Next, Move, HistoryAfter, HostsAfter, Possible, StoredAfter, BookOk;
    if log == [] {
      NotInFlightYet(w, u);
    } else {
      var earlier, step := log[..|log| - 1], Last(log);
      var before := Play(first, earlier).value;
      StepKeepsMachines(before, step);
      IssuedHost(first, earlier, before, u);
      BookOf(first, earlier, before, u);
      if step.MachineStep? && step.u == u {
        OwnStep(before, u, step.act);
        AttemptHosts(before.hosts, u, before.machines[u], w.machines[u], step.act, IssuedOn(first, earlier, u));
      } else {
        OthersStep(before, step, u);
      }
    }
  }

  lemma CompletingPc(m: Machine)
    requires BookOk(m) && HostBooked(m) && m.actor.pc.Completing? && !m.actor.pc.via.ByRecord?
    ensures m.stored.upgrade == InFlight && m.actor.local.resolvedHost.Some?
  {
    hide Journal;
  }

  /** In every run an upgrade in flight is completed on the host of its attempt if and only if
      the machine has last recorded the host on which it wrote the upgrade ahead. */
  lemma {:induction false} CompletesOnItsHost(first: World, log: seq<Step>, w: World, u: Uid)
    requires Ran(first, log, w) && u in w.machines
    requires w.machines[u].actor.pc.Completing? && !w.machines[u].actor.pc.via.ByRecord?
    ensures var m := w.machines[u];
            m.hist.attempt.Some? &&
            (m.hist.attempt.value.host == Target(m.actor) <==> LastRecorded(first, log, u) == IssuedOn(first, log, u))
  {
    hide Init, Next, BookOk, HostBooked, GoneOk;
    BookOf(first, log, w, u);
    RememberedAlways(first, log, w);
    CompletingPc(w.machines[u]);
    IssuedHost(first, log, w, u);
    RecordedHost(first, log, w, u);
  }

  lemma {:induction false} EmptyTagIsRead(first: World, log: seq<Step>, w: World, u: Uid)
    requires Ran(first, log, w) && u in w.machines
    ensures w.machines[u].hist.emptyTag <==> MachineStep(u, ReadVersion(Tag(""))) in log
  {
    hide Init, Next, Move, HistoryAfter, HostsAfter, Possible, StoredAfter;
    if log == [] {
      NotInFlightYet(w, u);
    } else {
      var earlier, step := log[..|log| - 1], Last(log);
      var before := Play(first, earlier).value;
      StepKeepsMachines(before, step);
      EmptyTagIsRead(first, earlier, before, u);
      assert log == earlier + [step];
      if step.MachineStep? && step.u == u {
        OwnStep(before, u, step.act);
        EmptyTagByAct(before.hosts, before.machines[u], step.act);
      } else {
        OthersStep(before, step, u);
      }
    }
  }

  lemma EmptyTagByAct(hosts: map<HostName, Host>, m: Machine, act: Act)
    ensures HistoryAfter(hosts, m, act).emptyTag == (m.hist.emptyTag || act == ReadVersion(Tag("")))
  {
  }

  /** The attempt's image is on disk, installed by it, and the host has rebooted into it. */
  predicate ReallyUpgraded(h: Host, t: Attempt) {
    t.installed == Some(h.installBoot) && h.installBoot < h.boot && h.running == h.installed && h.image == t.ref
  }

  /** Leaving InFlight as complete, on the host the upgrade was written ahead on, means that
      the attempt's image was installed, that the host has rebooted since, and that it runs
      what was installed. The applied ref names that image exactly when the desired version
      was not edited meanwhile. By the version fallback this needs that no tag read so far was
      empty and that nothing else was waiting for a reboot when the attempt began. */
  lemma {:induction false} CompletionIsSound(first: World, log: seq<Step>, w: World, u: Uid, self: MachineRec, w': World)
    requires Ran(first, log, w) && NothingStolen(first, log) && u in w.machines && !w.machines[u].hist.released
    requires Next(w, MachineStep(u, Patch(self))) == Some(w') && u in w'.machines
    requires w.machines[u].actor.pc.Completing? && !w.machines[u].actor.pc.via.ByRecord?
    requires LastRecorded(first, log, u) == IssuedOn(first, log, u)
    requires w.machines[u].actor.pc.via.ByTag? ==>
               && MachineStep(u, ReadVersion(Tag(""))) !in log
               && w.machines[u].hist.attempt.Some? && w.machines[u].hist.attempt.value.settled
    ensures w.machines[u].hist.attempt.Some? && Target(w.machines[u].actor) in w.hosts
    ensures var t, h := w.machines[u].hist.attempt.value, w.hosts[Target(w.machines[u].actor)];
            && ReallyUpgraded(h, t)
            && w'.machines[u].stored.upgrade == NoUpgrade
            && (w'.machines[u].stored.appliedRef == h.image <==> w.machines[u].actor.local.desired == t.ref)
  {
    hide Init, Next, Followed, OwnershipOk, Possible, HostsAfter, HistoryAfter, PatchMachine, BookOk, AfterPatch;
    CompletesOnItsHost(first, log, w, u);
    EmptyTagIsRead(first, log, w, u);
    FollowedAlways(first, log);
    FollowedMachine(w, u);
    PhysicalIn(w, Target(w.machines[u].actor));
    OwnStep(w, u, Patch(self));
    CompletedRecord(w.machines[u]);
    ObservedHost(w.hosts, w.machines[u]);
  }

  /** What the completing patch stores. */
  lemma CompletedRecord(m: Machine)
    requires BookOk(m) && m.actor.pc.Completing?
    ensures Intended(m.actor).Some?
    ensures var s' := PatchMachine(m.stored, PatchBase(m.actor), Intended(m.actor).value);
            s'.upgrade == NoUpgrade && s'.appliedRef == m.actor.local.desired
  {
    hide PatchMachine, UpgradeOk;
    Syncs(m.stored, m.actor, m.hist);
  }

  /** What the completing reconcile has observed. */
  lemma ObservedHost(hosts: map<HostName, Host>, m: Machine)
    requires MachineFollowed(hosts, m) && !m.hist.released
    requires m.actor.pc.Completing? && !m.actor.pc.via.ByRecord?
    requires m.hist.attempt.Some? && m.hist.attempt.value.host == Target(m.actor)
    requires m.actor.pc.via.ByTag? ==> Trusted(m.hist)
    ensures Target(m.actor) in hosts
    ensures var t, h := m.hist.attempt.value, hosts[Target(m.actor)];
            RebootedSince(h, t) && h.installBoot == t.installed.value && h.image == t.ref
  {
  }

  lemma PhysicalIn(w: World, name: HostName)
    requires Followed(w)
    ensures name in w.hosts ==> Physical(w.hosts[name])
  {
  }

  // ---------- Before the node is linked ----------

  /** Some stored version of the host shows the version the machine has recorded. */
  ghost predicate Mirrored(hosts: map<HostName, Host>, m: MachineRec) {
    m.talosVersion != "" && m.resolvedHost.Some? && m.resolvedHost.value in hosts ==>
      var h := hosts[m.resolvedHost.value];
      h.gone || exists i :: 0 <= i < |h.versions| && h.versions[i].talosVersion == m.talosVersion
  }

  predicate Upgraded(m: MachineRec) {
    m.desired != "" && m.upgrade != Failed
  }

  ghost predicate LinkOk(hosts: map<HostName, Host>, s: MachineRec, a: Actor) {
    !a.pc.Idle? ==>
      && a.base.nodeUpdated == s.nodeUpdated && a.local.nodeUpdated == s.nodeUpdated
      && ((a.pc.Link? || a.pc.LinkSave?) && Upgraded(a.local) ==> Mirrored(hosts, a.local))
  }

  lemma MirroredGrows(hosts: map<HostName, Host>, hosts': map<HostName, Host>, m: MachineRec)
    requires Mirrored(hosts, m) && HostsGrow(hosts, hosts')
    ensures Mirrored(hosts', m)
  {
    if m.resolvedHost.Some? && m.resolvedHost.value in hosts && m.talosVersion != "" {
      var h, h' := hosts[m.resolvedHost.value], hosts'[m.resolvedHost.value];
      assert Grows(h, h');
      if !h.gone {
        var i :| 0 <= i < |h.versions| && h.versions[i].talosVersion == m.talosVersion;
        assert h'.versions[i] == h.versions[i];
      }
    }
  }

  lemma LinkGrows(hosts: map<HostName, Host>, hosts': map<HostName, Host>, s: MachineRec, s': MachineRec, a: Actor)
    requires LinkOk(hosts, s, a) && HostsGrow(hosts, hosts') && s'.nodeUpdated == s.nodeUpdated
    ensures LinkOk(hosts', s', a)
  {
    hide Mirrored, HostsGrow;
    if Mirrored(hosts, a.local) {
      MirroredGrows(hosts, hosts', a.local);
    }
  }

  /** Straight to the link only without a desired version, or failed. */
  lemma DecideLinks(m: MachineRec, hash: string)
    ensures !DecidePc(m, hash).LinkSave? && (DecidePc(m, hash).Link? ==> !Upgraded(m))
    ensures !EnsurePc(m).LinkSave? && (EnsurePc(m).Link? && m.ready ==> !Upgraded(m))
  {
  }

  lemma NodePatch(hosts: map<HostName, Host>, s: MachineRec, a: Actor)
    requires LinkOk(hosts, s, a) && Intended(a).Some?
    ensures var s' := PatchMachine(s, PatchBase(a), Intended(a).value);
            && s'.nodeUpdated == Intended(a).value.nodeUpdated
            && (if a.pc.LinkSave? then s'.nodeUpdated else s'.nodeUpdated == s.nodeUpdated)
            && (!a.pc.LinkSave? ==> a.base.nodeUpdated == s'.nodeUpdated)
  {
    hide Mirrored;
  }

  /** A patch leads to the link only when nothing is upgraded or nothing can be mirrored. */
  lemma PatchLinks(spec: MachineSpec, a: Actor)
    requires Intended(a).Some?
    ensures var m := Intended(a).value; var pc := AfterPatch(spec, a.pc, m, a.hash);
            && !pc.LinkSave? && (a.pc.LinkSave? ==> pc.Idle?)
            && (pc.Link? && Upgraded(m) ==> m.resolvedHost.None? || m.talosVersion == "")
  {
    hide DecidePc, EnsurePc, DispatchPc;
    DecideLinks(Intended(a).value, a.hash);
    DispatchNeverLinks(Intended(a).value);
  }

  lemma LinkPatch(hosts: map<HostName, Host>, spec: MachineSpec, s: MachineRec, a: Actor)
    requires LinkOk(hosts, s, a) && Intended(a).Some?
    ensures var l' := Intended(a).value;
            LinkOk(hosts, PatchMachine(s, PatchBase(a), l'), a.(local := l', pc := AfterPatch(spec, a.pc, l', a.hash)))
    ensures !a.pc.LinkSave? ==> PatchMachine(s, PatchBase(a), Intended(a).value).nodeUpdated == s.nodeUpdated
    ensures a.pc.LinkSave? ==> PatchMachine(s, PatchBase(a), Intended(a).value).nodeUpdated
  {
    hide PatchMachine, AfterPatch, Intended, PatchBase;
    NodePatch(hosts, s, a);
    PatchLinks(spec, a);
  }

  lemma DispatchNeverLinks(m: MachineRec)
    ensures !DispatchPc(m).Link? && !DispatchPc(m).LinkSave?
  {
  }

  lemma MirrorRead(hosts: map<HostName, Host>, u: Uid, spec: MachineSpec, a: Actor, seen: Seen)
    requires AfterRead(u, spec, a, seen).Some? && ReadTarget(spec, a).Some? && SeenIn(hosts, ReadTarget(spec, a).value, seen)
    ensures var pc := AfterRead(u, spec, a, seen).value;
            (pc.Link? || pc.LinkSave?) && Upgraded(a.local) ==> Mirrored(hosts, a.local)
  {
    hide DecidePc;
    DecideLinks(a.local, a.hash);
  }

  lemma MirrorWrite(hosts: map<HostName, Host>, u: Uid, m: Machine, act: Act)
    requires Possible(hosts, m, act) && act.PutStatus? && ToPut(u, m.actor) == Some(act.rec)
    ensures var pc := AfterPut(m.actor.pc, act.rec, act.ok);
            pc.Link? || pc.LinkSave? ==> Mirrored(HostsAfter(hosts, u, m, act), m.actor.local)
  {
    if act.ok && m.actor.pc.MirrorPut? {
      var v := HostsAfter(hosts, u, m, act)[PutTarget(m.actor).value].versions;
      assert v[|v| - 1].talosVersion == m.actor.local.talosVersion;
    }
  }

  lemma LinkOther(u: Uid, spec: MachineSpec, a: Actor, act: Act)
    requires Move(u, spec, a, act).Some? && !act.ReadHost? && !act.PutStatus? && !act.Patch? && !act.PutFinalizer?
    ensures var pc := Move(u, spec, a, act).value.pc; !pc.Link? && (pc.LinkSave? ==> a.pc.Link? && act == LinkNode(true))
  {
  }

  lemma LinkAnswer(hosts: map<HostName, Host>, u: Uid, m: Machine, m': Machine, act: Act)
    requires Acted(hosts, u, m, m', act) && LinkOk(hosts, m.stored, m.actor)
    requires HostsGrow(hosts, HostsAfter(hosts, u, m, act))
    requires !act.Patch? && !act.PutFinalizer? && !act.Start? && !act.StartDelete?
    ensures LinkOk(HostsAfter(hosts, u, m, act), m'.stored, m'.actor)
  {
    hide HostsAfter, Mirrored, HostsGrow, AfterRead, AfterPut, ToPut, AdoptMove, UpgradeMove, FinalMove, Possible, HistoryAfter, SeenIn, ReadTarget, Written;
    LocalMove(u, m.spec, m.actor, act);
    StoredByAnswer(m, act);
    var hosts' := HostsAfter(hosts, u, m, act);
    if act.ReadHost? {
      ReadFacts(hosts, u, m, act);
      MirrorRead(hosts, u, m.spec, m.actor, act.seen);
    } else if act.PutStatus? {
      MirrorWrite(hosts, u, m, act);
    } else {
      LinkOther(u, m.spec, m.actor, act);
    }
    if Mirrored(hosts, m.actor.local) {
      MirroredGrows(hosts, hosts', m.actor.local);
    }
  }

  lemma ReadFacts(hosts: map<HostName, Host>, u: Uid, m: Machine, act: Act)
    requires act.ReadHost? && Possible(hosts, m, act)
    ensures ReadTarget(m.spec, m.actor).Some? && SeenIn(hosts, ReadTarget(m.spec, m.actor).value, act.seen)
  {
  }

  lemma OwnLink(hosts: map<HostName, Host>, u: Uid, m: Machine, m': Machine, act: Act)
    requires Acted(hosts, u, m, m', act) && LinkOk(hosts, m.stored, m.actor) && !act.PutFinalizer?
    requires HostsGrow(hosts, HostsAfter(hosts, u, m, act))
    ensures LinkOk(HostsAfter(hosts, u, m, act), m'.stored, m'.actor)
  {
    hide HostsAfter, LinkOk, PatchMachine, Intended, AfterPatch, ClaimMove, AdoptMove, UpgradeMove, FinalMove, HistoryAfter;
    if act.Patch? {
      SameHosts(hosts, u, m, m', act);
      LinkPatch(hosts, m.spec, m.stored, m.actor);
    } else if act.Start? || act.StartDelete? {
      LinkStart(hosts, u, m, m', act);
      SameHosts(hosts, u, m, m', act);
    } else {
      LinkAnswer(hosts, u, m, m', act);
    }
  }

  lemma LinkStart(hosts: map<HostName, Host>, u: Uid, m: Machine, m': Machine, act: Act)
    requires Acted(hosts, u, m, m', act) && (act.Start? || act.StartDelete?)
    ensures LinkOk(hosts, m'.stored, m'.actor)
  {
  }

  ghost predicate Links(w: World) {
    forall u :: u in w.machines ==> LinkOk(w.hosts, w.machines[u].stored, w.machines[u].actor)
  }

  lemma LinksStep(w: World, step: Step)
    requires Recorded(w) && Links(w) && Next(w, step).Some?
    ensures Links(Next(w, step).value)
  {
    hide Next, LinkOk, Move, Possible, HistoryAfter, StoredAfter, HostsAfter, HostsOk, HostsGrow, MachineOk;
    var w' := Next(w, step).value;
    StepKeepsMachines(w, step);
    StepGrowsHosts(w, step);
    forall u | u in w'.machines
      ensures LinkOk(w'.hosts, w'.machines[u].stored, w'.machines[u].actor)
    {
      if step.MachineStep? && step.u == u {
        OwnStep(w, u, step.act);
        var m := w.machines[u];
        NoFinalizerPut(w.hosts, u, m.spec, m.stored, m.actor, step.act);
        OwnLink(w.hosts, u, m, w'.machines[u], step.act);
      } else {
        OthersStep(w, step, u);
        LinkGrows(w.hosts, w'.hosts, w.machines[u].stored, w'.machines[u].stored, w.machines[u].actor);
      }
    }
  }

  lemma InitLinks(w: World)
    requires Init(w)
    ensures Links(w)
  {
  }

  lemma {:induction false} LinksAlways(first: World, log: seq<Step>, w: World)
    requires Ran(first, log, w)
    ensures Links(w)
  {
    hide Init, Links, Next, Recorded;
    if log == [] {
      InitLinks(w);
    } else {
      var earlier := log[..|log| - 1];
      LinksAlways(first, earlier, Play(first, earlier).value);
      RecordedAlways(first, earlier);
      LinksStep(Play(first, earlier).value, Last(log));
    }
  }

  /** Upgrade before link: when linkNode is reached with a desired version and the upgrade
      is not Failed, that version is the applied one and no upgrade is pending, in memory as
      in the store, and the host's record has shown the machine's version. */
  lemma {:induction false} UpgradeBeforeLink(first: World, log: seq<Step>, w: World, u: Uid)
    requires Ran(first, log, w) && u in w.machines && (w.machines[u].actor.pc.Link? || w.machines[u].actor.pc.LinkSave?)
    ensures var s, l := w.machines[u].stored, w.machines[u].actor.local;
            l.desired != "" && l.upgrade != Failed ==>
              && l.upgrade == NoUpgrade && l.appliedRef == l.desired
              && s.upgrade == NoUpgrade && s.appliedRef == l.desired
              && Mirrored(w.hosts, l)
  {
    hide Init, Next;
    BookOf(first, log, w, u);
    LinksAlways(first, log, w);
  }

  /** Where a reconcile enters the link with a version to mirror. */
  lemma EntersLink(hosts: map<HostName, Host>, u: Uid, m: Machine, m': Machine, act: Act)
    requires Acted(hosts, u, m, m', act) && !m.actor.pc.Link? && m'.actor.pc.Link?
    requires var l := m'.actor.local; Upgraded(l) && l.talosVersion != "" && l.resolvedHost.Some?
    ensures m'.actor.local == m.actor.local
    ensures || (m.actor.pc.MirrorGet? && act == ReadHost(Missing))
            || (m.actor.pc.MirrorGet? && act.ReadHost? && act.seen.Version? && act.seen.rec.talosVersion == m'.actor.local.talosVersion)
            || (m.actor.pc.MirrorPut? && act.PutStatus? && act.ok && act.rec.talosVersion == m'.actor.local.talosVersion)
  {
    hide Possible, StoredAfter, HistoryAfter, DecidePc, EnsurePc, DispatchPc, AfterPatch, LeastCandidate, Intended,
      AdoptMove, UpgradeMove, FinalMove;
    if act.Patch? {
      PatchIntended(u, m.spec, m.actor, act);
      PatchLinks(m.spec, m.actor);
    } else if !act.Start? && !act.StartDelete? {
      LocalMove(u, m.spec, m.actor, act);
      DecideLinks(m.actor.local, m.actor.hash);
      if !act.ReadHost? && !act.PutStatus? && !act.PutFinalizer? {
        LinkOther(u, m.spec, m.actor, act);
      }
    }
  }

  /** When linking is next, the current version of the host's record shows the machine's version
      exactly if the reconcile has just written it there, or if the version read, which did show
      it, shows what the current one does: in particular if it was the current one. */
  lemma {:induction false} MirrorsCurrent(first: World, log: seq<Step>, w: World, u: Uid, act: Act, w': World, name: HostName)
    requires Ran(first, log, w) && Next(w, MachineStep(u, act)) == Some(w') && u in w.machines && u in w'.machines
    requires !w.machines[u].actor.pc.Link? && w'.machines[u].actor.pc.Link?
    requires var l := w'.machines[u].actor.local; Upgraded(l) && l.talosVersion != "" && l.resolvedHost == Some(name)
    requires name in w.hosts && name in w'.hosts && !w'.hosts[name].gone
    ensures w.hosts[name].versions != [] && w'.hosts[name].versions != []
    ensures act.PutStatus? || (act.ReadHost? && act.seen.Version?)
    ensures Last(w'.hosts[name].versions).talosVersion == w'.machines[u].actor.local.talosVersion <==>
            act.PutStatus? || Last(w.hosts[name].versions).talosVersion == act.seen.rec.talosVersion
    ensures act.ReadHost? && act.seen.at + 1 == |w.hosts[name].versions| ==>
              Last(w'.hosts[name].versions).talosVersion == w'.machines[u].actor.local.talosVersion
  {
    hide Init, Next, Move, StoredAfter, HistoryAfter, Recorded;
    RecordedAlways(first, log);
    OwnStep(w, u, act);
    HostOkIn(w, name);
    EntersLink(w.hosts, u, w.machines[u], w'.machines[u], act);
  }

  /** nodeUpdated flips only by the patch that follows linking the node in the same
      reconcile, and never back. */
  lemma {:induction false} NodeUpdatedOnce(first: World, log: seq<Step>, w: World, step: Step, w': World, u: Uid)
    requires Ran(first, log, w) && Next(w, step) == Some(w') && u in w.machines
    requires u in w'.machines && w.machines[u].stored.nodeUpdated != w'.machines[u].stored.nodeUpdated
    ensures w'.machines[u].stored.nodeUpdated
    ensures step.MachineStep? && step.u == u && step.act.Patch? && w.machines[u].actor.pc.LinkSave?
    ensures LinkNode(true) in Acts(log, u)
  {
    hide Init, Next, Evident, Links, Justified, PatchMachine, Intended, AfterPatch, Possible, HostsAfter, HistoryAfter, LinkOk;
    LinksAlways(first, log, w);
    EvidentAlways(first, log, w);
    EvidentFor(log, w, u, "");
    if !(step.MachineStep? && step.u == u) {
      OthersStep(w, step, u);
    } else {
      OwnStep(w, u, step.act);
      var m := w.machines[u];
      LinkOf(w, u);
      if step.act.Patch? {
        LinkPatch(w.hosts, m.spec, m.stored, m.actor);
        SavedAfterLink(Acts(log, u), m.spec, m.actor);
      } else {
        NodeByAnswer(w.hosts, m, step.act);
      }
    }
  }

  lemma LinkOf(w: World, u: Uid)
    requires Links(w) && u in w.machines
    ensures LinkOk(w.hosts, w.machines[u].stored, w.machines[u].actor)
  {
  }

  lemma SavedAfterLink(acts: seq<Act>, spec: MachineSpec, a: Actor)
    requires Justified(acts, spec, a)
    ensures a.pc.LinkSave? ==> LinkNode(true) in acts
  {
  }

  lemma NodeByAnswer(hosts: map<HostName, Host>, m: Machine, act: Act)
    requires !act.Patch? && Possible(hosts, m, act)
    ensures StoredAfter(m, act).nodeUpdated == m.stored.nodeUpdated
  {
  }
}
