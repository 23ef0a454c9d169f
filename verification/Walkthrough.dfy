/** The way the code is meant to go, as one run: a host is discovered, claimed, adopted,
    upgraded and found complete by its boot-id. It shows that what the results about upgrades
    require does happen. */
module Walkthrough {
  import opened Common
  import opened Records
  import opened HostProtocol
  import opened MachineProtocol
  import opened World
  import opened HostHistory
  import opened Ownership
  import opened Reconciles
  import opened UpgradeProperties
  import opened Runs

  const IMAGE := "factory.talos.dev/installer:v2"

  /** A machine that wants host h on IMAGE. */
  const WANTED := NEW_MACHINE.(desired := IMAGE)

  const SPEC := MachineSpec(Some("h"), "", "c", None, false, 1, 1)

  function OneHostOneMachine(): World {
    World(map["h" := Host([NEW_HOST], false, 1, IDLE_HOST, Empty, 0, "", "", "", 0)],
          map["a" := Machine(SPEC, WANTED, false, IDLE_MACHINE, NO_HISTORY)])
  }

  lemma BeginsFresh()
    ensures var w := OneHostOneMachine();
            && Ran(w, [], w) && FreshHost(w.hosts["h"]) && Unclaimed(w.machines["a"], "h")
            && w.machines["a"].stored == WANTED && w.machines["a"].hist == NO_HISTORY
  {
  }

  /** The in-memory record after each commit. */
  const FINALIZED := WANTED.(finalizer := true)
  const CLAIMED := FINALIZED.(resolvedHost := Some("h"), resolvedIP := "1")
  const ADOPTED := CLAIMED.(providerID := PROVIDER_PREFIX + "1", ready := true, configSHA := "")
  const ISSUED := ADOPTED.(talosVersion := "v1", upgrade := InFlight, attemptGeneration := 1)

  function StashedAt(id: BootId): MachineRec {
    ISSUED.(preRebootBoot := id)
  }

  /** The spec edit of the adoption bumps the stored generation. */
  function Stored(local: MachineRec): MachineRec {
    local.(generation := 2)
  }

  /** Machine a is at this point and holds host h; which host it was told to take is open. */
  predicate Stands(w: World, actor: Actor, stored: MachineRec) {
    && w.machines.Keys == {"a"} && "h" in w.hosts
    && var m, h := w.machines["a"], w.hosts["h"];
    && m.actor == actor && m.stored == stored && !m.gone && !m.hist.released
    && m.spec == SPEC.(hostRef := m.spec.hostRef)
    && h.versions != [] && !h.gone && Last(h.versions).claimRef == Some("a") && Last(h.versions).publicIP == "1"
  }

  predicate Carries(h: Host, tag: string) {
    h.config == Configured(Some("a"), "c") && h.running == tag
  }

  // ---------- One step at a time ----------

  /** Nothing else changes: no other host, no record of a host, no machine's spec. */
  predicate Beside(w: World, w': World) {
    && "h" in w.hosts && "h" in w'.hosts && w'.hosts["h"].versions == w.hosts["h"].versions
    && "a" in w.machines && "a" in w'.machines && w'.machines["a"].spec == w.machines["a"].spec
    && w'.hosts.Keys == w.hosts.Keys && (forall name :: name in w.hosts && name != "h" ==> w'.hosts[name] == w.hosts[name])
  }

  /** The step from one stand to the next. */
  predicate Leads(w: World, act: Act, w': World, actor: Actor, stored: MachineRec) {
    Next(w, MachineStep("a", act)) == Some(w') && Stands(w', actor, stored) && Beside(w, w')
  }

  lemma Answers(w: World, actor: Actor, s: MachineRec, act: Act, pc: Pc, answered: bool) returns (w': World)
    requires Stands(w, actor, s) && Move("a", w.machines["a"].spec, actor, act) == Some(actor.(pc := pc, answered := answered))
    requires act.ReadHost? || act.ListHosts? || act.FetchConfig? || act.ProbeMaintenance? || (act.ReadBoot? && !act.live.NoBoot?)
    requires Possible(w.hosts, w.machines["a"], act)
    ensures Leads(w, act, w', actor.(pc := pc, answered := answered), s)
    ensures w'.hosts == w.hosts && w'.machines["a"].hist == w.machines["a"].hist
  {
    hide Next, Move, Possible;
    var m := w.machines["a"];
    assert w.machines["a" := m] == w.machines;
    Moves(w, "a", actor, act, actor.(pc := pc, answered := answered));
    w' := At(w, "a", actor.(pc := pc, answered := answered));
  }

  lemma ConfigApplied(w: World) returns (w': World)
    requires Stands(w, Actor(Apply(Insecure), FINALIZED, CLAIMED, "", true, false), CLAIMED) && w.hosts["h"].config.Empty?
    ensures Leads(w, ApplyConfig(true, "v1"), w', Actor(Adopt, FINALIZED, CLAIMED, "", true, false), CLAIMED)
    ensures Carries(w'.hosts["h"], "v1") && w'.hosts["h"].installed == "v1" && w'.hosts["h"].boot > 0
  {
    hide ClaimMove, UpgradeMove, FinalMove, Intended, AfterPatch;
    w' := Next(w, MachineStep("a", ApplyConfig(true, "v1"))).value;
  }

  lemma CommitsOf(w: World, actor: Actor, stored: MachineRec, self: MachineRec) returns (w': World)
    requires Stands(w, actor, stored) && Intended(actor) == Some(self)
    ensures Leads(w, Patch(self), w', actor.(local := self, pc := AfterPatch(w.machines["a"].spec, actor.pc, self, actor.hash)),
                  PatchMachine(stored, PatchBase(actor), self))
    ensures w'.hosts == w.hosts
    ensures !actor.pc.Adopt? && !actor.pc.FailClear? && !actor.pc.WriteAhead? ==> w'.machines["a"].hist == w.machines["a"].hist
    ensures w'.machines["a"].hist.attempt == w.machines["a"].hist.attempt
  {
    hide ClaimMove, AdoptMove, UpgradeMove, FinalMove, AfterPatch, PatchMachine, Intended, PatchBase;
    w' := Next(w, MachineStep("a", Patch(self))).value;
  }

  lemma ReadsTag(w: World) returns (w': World)
    requires Stands(w, Actor(PreProbe, FINALIZED, ADOPTED, "", true, false), Stored(ADOPTED))
    requires Carries(w.hosts["h"], "v1") && w.hosts["h"].installed == "v1"
    ensures Leads(w, ReadVersion(Tag("v1")), w', Actor(WriteAhead("v1"), FINALIZED, ADOPTED, "", true, false), Stored(ADOPTED))
    ensures w'.hosts == w.hosts && w'.machines["a"].hist.attempt == Some(Attempt("h", "v1", IMAGE, true, None))
  {
    hide ClaimMove, AdoptMove, FinalMove, Intended, AfterPatch;
    w' := Next(w, MachineStep("a", ReadVersion(Tag("v1")))).value;
  }

  lemma ImageInstalled(w: World) returns (w': World)
    requires Stands(w, Actor(Issue, FINALIZED, ISSUED, "", true, false), Stored(ISSUED)) && Carries(w.hosts["h"], "v1")
    requires w.machines["a"].hist.attempt.Some? && w.machines["a"].hist.attempt.value.host == "h"
    ensures Leads(w, Install(Done("v2")), w', Actor(Capture, FINALIZED, ISSUED, "", true, false), Stored(ISSUED))
    ensures Carries(w'.hosts["h"], "v1") && w'.hosts["h"].installed == "v2" && w'.hosts["h"].boot == w.hosts["h"].boot
    ensures w'.machines["a"].hist.attempt.Some? && w'.machines["a"].hist.attempt.value.host == "h"
  {
    hide ClaimMove, AdoptMove, FinalMove, Intended, AfterPatch;
    w' := Next(w, MachineStep("a", Install(Done("v2")))).value;
  }

  lemma Captures(w: World) returns (w': World)
    requires Stands(w, Actor(Capture, FINALIZED, ISSUED, "", true, false), Stored(ISSUED)) && Carries(w.hosts["h"], "v1")
    ensures var id := w.hosts["h"].boot + 1;
            Leads(w, CaptureBoot(id), w', Actor(Restart(id), FINALIZED, ISSUED, "", true, false), Stored(ISSUED))
    ensures w'.hosts == w.hosts && w'.machines["a"].hist == w.machines["a"].hist
  {
    hide ClaimMove, AdoptMove, FinalMove, Intended, AfterPatch;
    w' := Next(w, MachineStep("a", CaptureBoot(w.hosts["h"].boot + 1))).value;
  }

  lemma Reboots(w: World) returns (w': World)
    requires "h" in w.hosts
    requires var id := w.hosts["h"].boot + 1; Stands(w, Actor(Restart(id), FINALIZED, ISSUED, "", true, false), Stored(ISSUED))
    requires Carries(w.hosts["h"], "v1") && w.hosts["h"].installed == "v2"
    ensures "h" in w'.hosts && w'.hosts["h"].boot == w.hosts["h"].boot + 1 && Carries(w'.hosts["h"], "v2")
    ensures Leads(w, Reboot(true), w', Actor(Stash(w'.hosts["h"].boot), FINALIZED, ISSUED, "", true, false), Stored(ISSUED))
    ensures w'.machines["a"].hist == w.machines["a"].hist
  {
    hide ClaimMove, AdoptMove, FinalMove, Intended, AfterPatch;
    w' := Next(w, MachineStep("a", Reboot(true))).value;
  }

  lemma StartsOver(w: World, actor: Actor, s: MachineRec) returns (w': World)
    requires Stands(w, actor, s) && actor.pc.Idle? && s.resolvedHost.Some? && s.finalizer && !s.deleting
    ensures Leads(w, Start(s, ""), w', Actor(Verify, s, s, "", false, false), s)
    ensures w'.hosts == w.hosts && w'.machines["a"].hist.attempt == w.machines["a"].hist.attempt
  {
    hide ClaimMove, AdoptMove, UpgradeMove, FinalMove, Intended, AfterPatch;
    w' := Next(w, MachineStep("a", Start(s, ""))).value;
  }

  lemma CrashesAt(w: World, actor: Actor, s: MachineRec) returns (w': World)
    requires Stands(w, actor, s) && !actor.pc.Idle?
    ensures Leads(w, Abort, w', actor.(pc := Idle), s)
    ensures w'.hosts == w.hosts && w'.machines["a"].hist == w.machines["a"].hist
  {
    hide ClaimMove, AdoptMove, UpgradeMove, Intended, AfterPatch;
    w' := Next(w, MachineStep("a", Abort)).value;
  }

  lemma SeesReboot(w: World, id: BootId) returns (w': World)
    requires var s := Stored(StashedAt(id)); Stands(w, Actor(PollBoot, s, s, "", false, false), s)
    requires id > 0 && w.hosts["h"].boot == id && Carries(w.hosts["h"], "v2")
    ensures var s := Stored(StashedAt(id)); Leads(w, ReadBoot(Boot(id + 1)), w', Actor(PollTag, s, s, "", false, false), s)
    ensures w'.hosts == w.hosts && w'.machines["a"].hist == w.machines["a"].hist
  {
    hide ClaimMove, AdoptMove, FinalMove, Intended, AfterPatch;
    w' := Next(w, MachineStep("a", ReadBoot(Boot(id + 1)))).value;
  }

  lemma SeesTag(w: World, id: BootId) returns (w': World)
    requires var s := Stored(StashedAt(id)); Stands(w, Actor(PollTag, s, s, "", false, false), s)
    requires Carries(w.hosts["h"], "v2")
    ensures var s := Stored(StashedAt(id));
            Leads(w, ReadVersion(Tag("v2")), w', Actor(Completing(ByBoot, "v2"), s, s, "", false, false), s)
    ensures w'.hosts == w.hosts && w'.machines["a"].hist.attempt == w.machines["a"].hist.attempt
  {
    hide ClaimMove, AdoptMove, FinalMove, Intended, AfterPatch;
    w' := Next(w, MachineStep("a", ReadVersion(Tag("v2")))).value;
  }

  // ---------- The stretches of the run ----------

  lemma Goes(first: World, log: seq<Step>, w: World, act: Act, w': World) returns (log': seq<Step>)
    requires Ran(first, log, w) && Next(w, MachineStep("a", act)) == Some(w')
    ensures Ran(first, log', w')
  {
    Extend(first, log, w, MachineStep("a", act), w');
    log' := log + [MachineStep("a", act)];
  }

  /** What the patches store, and where they lead. */
  lemma Patches()
    ensures PatchMachine(CLAIMED, FINALIZED, ADOPTED) == Stored(ADOPTED)
    ensures forall spec :: AfterPatch(spec, Adopt, ADOPTED, "") == NeedConfig(ForIssue)
    ensures PatchMachine(Stored(ADOPTED), FINALIZED, ISSUED) == Stored(ISSUED)
    ensures forall spec :: AfterPatch(spec, WriteAhead("v1"), ISSUED, "") == Issue
    ensures forall id: BootId :: id != 0 ==> PatchMachine(Stored(ISSUED), FINALIZED, StashedAt(id)) == Stored(StashedAt(id))
    ensures forall spec, id: BootId :: AfterPatch(spec, Stash(id), StashedAt(id), "") == Idle
  {
  }

  lemma Adoption(first: World, log: seq<Step>, w: World)
    returns (log': seq<Step>, w': World)
    requires Ran(first, log, w) && Stands(w, Actor(Preflight, FINALIZED, CLAIMED, "", false, false), CLAIMED)
    requires w.hosts["h"].config.Empty?
    ensures Ran(first, log', w')
    ensures Stands(w', Actor(NeedConfig(ForIssue), FINALIZED, ADOPTED, "", true, false), Stored(ADOPTED))
    ensures Carries(w'.hosts["h"], "v1") && w'.hosts["h"].installed == "v1" && w'.hosts["h"].boot > 0 && Beside(w, w')
  {
    hide Ran, Next, AfterPatch, PatchMachine, Move, Possible;
    var w2 := MaintenanceAnswers(w);
    log' := Goes(first, log, w, ProbeMaintenance(true), w2);
    w' := ConfigApplied(w2);
    log' := Goes(first, log', w2, ApplyConfig(true, "v1"), w');
    Patches();
    w2 := CommitsOf(w', w'.machines["a"].actor, CLAIMED, ADOPTED);
    log' := Goes(first, log', w', Patch(ADOPTED), w2);
    w' := w2;
  }

  lemma MaintenanceAnswers(w: World) returns (w': World)
    requires Stands(w, Actor(Preflight, FINALIZED, CLAIMED, "", false, false), CLAIMED) && w.hosts["h"].config.Empty?
    ensures Leads(w, ProbeMaintenance(true), w', Actor(Apply(Insecure), FINALIZED, CLAIMED, "", true, false), CLAIMED)
    ensures w'.hosts == w.hosts
  {
    hide Next;
    w' := Answers(w, w.machines["a"].actor, CLAIMED, ProbeMaintenance(true), Apply(Insecure), true);
  }

  lemma WritesAhead(first: World, log: seq<Step>, w: World)
    returns (log': seq<Step>, w': World)
    requires Ran(first, log, w)
    requires Stands(w, Actor(NeedConfig(ForIssue), FINALIZED, ADOPTED, "", true, false), Stored(ADOPTED))
    requires Carries(w.hosts["h"], "v1") && w.hosts["h"].installed == "v1"
    ensures Ran(first, log', w') && w'.hosts == w.hosts && Beside(w, w')
    ensures Stands(w', Actor(Issue, FINALIZED, ISSUED, "", true, false), Stored(ISSUED))
    ensures w'.machines["a"].hist.attempt == Some(Attempt("h", "v1", IMAGE, true, None))
  {
    hide Ran, Next, AfterPatch, PatchMachine;
    Patches();
    w' := Answers(w, w.machines["a"].actor, Stored(ADOPTED), FetchConfig(true), PreProbe, true);
    log' := Goes(first, log, w, FetchConfig(true), w');
    var w2 := ReadsTag(w');
    log' := Goes(first, log', w', ReadVersion(Tag("v1")), w2);
    w' := CommitsOf(w2, w2.machines["a"].actor, Stored(ADOPTED), ISSUED);
    log' := Goes(first, log', w2, Patch(ISSUED), w');
  }

  lemma Installation(first: World, log: seq<Step>, w: World)
    returns (log': seq<Step>, w': World)
    requires Ran(first, log, w) && Stands(w, Actor(Issue, FINALIZED, ISSUED, "", true, false), Stored(ISSUED))
    requires Carries(w.hosts["h"], "v1") && w.machines["a"].hist.attempt == Some(Attempt("h", "v1", IMAGE, true, None))
    ensures Ran(first, log', w') && "h" in w'.hosts && w'.hosts["h"].boot == w.hosts["h"].boot + 1 && Carries(w'.hosts["h"], "v2")
    ensures Beside(w, w')
    ensures Stands(w', Actor(Stash(w'.hosts["h"].boot), FINALIZED, ISSUED, "", true, false), Stored(ISSUED))
    ensures w'.machines["a"].hist.attempt.Some? && w'.machines["a"].hist.attempt.value.host == "h"
  {
    hide Ran, Next;
    w' := ImageInstalled(w);
    log' := Goes(first, log, w, Install(Done("v2")), w');
    var w2 := Captures(w');
    log' := Goes(first, log', w', CaptureBoot(w'.hosts["h"].boot + 1), w2);
    w' := Reboots(w2);
    log' := Goes(first, log', w2, Reboot(true), w');
  }

  lemma Stashing(first: World, log: seq<Step>, w: World, id: BootId)
    returns (log': seq<Step>, w': World)
    requires Ran(first, log, w) && id > 0
    requires Stands(w, Actor(Stash(id), FINALIZED, ISSUED, "", true, false), Stored(ISSUED))
    ensures Ran(first, log', w') && w'.hosts == w.hosts && Beside(w, w')
    ensures Stands(w', Actor(Idle, FINALIZED, StashedAt(id), "", true, false), Stored(StashedAt(id)))
    ensures w'.machines["a"].hist == w.machines["a"].hist
  {
    hide Ran, Next, AfterPatch, PatchMachine;
    Patches();
    w' := CommitsOf(w, w.machines["a"].actor, Stored(ISSUED), StashedAt(id));
    log' := Goes(first, log, w, Patch(StashedAt(id)), w');
  }

  lemma Polling(first: World, log: seq<Step>, w: World, id: BootId)
    returns (log': seq<Step>, w': World)
    requires Ran(first, log, w) && id > 0
    requires Stands(w, Actor(Idle, FINALIZED, StashedAt(id), "", true, false), Stored(StashedAt(id)))
    requires w.hosts["h"].boot == id && Carries(w.hosts["h"], "v2")
    ensures Ran(first, log', w') && Beside(w, w')
    ensures var s := Stored(StashedAt(id)); Stands(w', Actor(Completing(ByBoot, "v2"), s, s, "", false, false), s)
    ensures w'.machines["a"].hist.attempt == w.machines["a"].hist.attempt
  {
    hide Ran, Next;
    var s := Stored(StashedAt(id));
    w' := StartsOver(w, w.machines["a"].actor, s);
    log' := Goes(first, log, w, Start(s, ""), w');
    var read := ReadHost(Current(w.hosts["h"]));
    var w2 := Answers(w', w'.machines["a"].actor, s, read, NeedConfig(ForPoll), false);
    log' := Goes(first, log', w', read, w2);
    w' := Answers(w2, w2.machines["a"].actor, s, FetchConfig(true), PollBoot, false);
    log' := Goes(first, log', w2, FetchConfig(true), w');
    w2 := SeesReboot(w', id);
    log' := Goes(first, log', w', ReadBoot(Boot(id + 1)), w2);
    w' := SeesTag(w2, id);
    log' := Goes(first, log', w2, ReadVersion(Tag("v2")), w');
  }

  /** The claim of Claims, with every field. */
  lemma ClaimedExactly(first: World, log: seq<Step>, w: World)
    returns (log': seq<Step>, w': World)
    requires Ran(first, log, w) && w.machines == OneHostOneMachine().machines
    requires "h" in w.hosts && Claimable(w.hosts["h"]) && Last(w.hosts["h"].versions).publicIP == "1"
    ensures Ran(first, log', w') && ClaimAdded(w, w')
    ensures Stands(w', Actor(Preflight, FINALIZED, CLAIMED, "", false, false), CLAIMED)
    ensures w'.machines["a"].spec == SPEC
  {
    hide Ran, Next;
    BeginsFresh();
    var w1;
    log', w1 := Selects(first, log, w, "a", "h");
    assert w1.machines["a"].stored == FINALIZED;
    log', w' := ClaimCommitted(first, log', w1);
  }

  /** The claim is one more version of the host's record. */
  predicate ClaimAdded(w: World, w': World) {
    && "h" in w.hosts && w.hosts["h"].versions != []
    && w'.hosts == w.hosts["h" := Store(w.hosts["h"],
                                        Last(w.hosts["h"].versions).(claimRef := Some("a"), phase := Phase.Claimed))]
  }

  lemma ClaimCommitted(first: World, log: seq<Step>, w: World)
    returns (log': seq<Step>, w': World)
    requires Ran(first, log, w) && w.machines.Keys == {"a"} && "h" in w.hosts && Claimable(w.hosts["h"])
    requires Last(w.hosts["h"].versions).publicIP == "1"
    requires var m, v := w.machines["a"], w.hosts["h"].versions;
             && m.actor == Actor(CasPut("h", "1", |v| - 1, Last(v)), FINALIZED, FINALIZED, "", false, false)
             && m.stored == FINALIZED && !m.gone && !m.hist.released && m.spec == SPEC.(hostRef := m.spec.hostRef)
    ensures Ran(first, log', w') && ClaimAdded(w, w')
    ensures Stands(w', Actor(Preflight, FINALIZED, CLAIMED, "", false, false), CLAIMED)
    ensures w'.machines["a"].spec == w.machines["a"].spec
  {
    hide Ran, Next;
    var rec := Last(w.hosts["h"].versions).(claimRef := Some("a"), phase := Phase.Claimed);
    var s1, s2 := MachineStep("a", PutStatus(rec, true)), MachineStep("a", Patch(CLAIMED));
    Wins(w, "a", "h");
    var w2 := Next(w, s1).value;
    Extend(first, log, w, s1, w2);
    ClaimStored(w2);
    w' := Next(w2, s2).value;
    Extend(first, log + [s1], w2, s2, w');
    log' := log + [s1] + [s2];
  }

  lemma ClaimStored(w: World)
    requires Stands(w, Actor(Record("h", "1"), FINALIZED, FINALIZED, "", false, false), FINALIZED)
    ensures Next(w, MachineStep("a", Patch(CLAIMED))).Some?
    ensures var w' := Next(w, MachineStep("a", Patch(CLAIMED))).value;
            && w'.hosts == w.hosts && Stands(w', Actor(Preflight, FINALIZED, CLAIMED, "", false, false), CLAIMED)
            && w'.machines["a"].spec == w.machines["a"].spec
  {
  }

  /** There is a run, without a release, whose next step completes an upgrade by boot-id, on the
      host of the attempt. */
  lemma UpgradeCompletes()
    returns (first: World, log: seq<Step>, w: World, self: MachineRec)
    ensures Ran(first, log, w) && NothingStolen(first, log) && "a" in w.machines && !w.machines["a"].hist.released
    ensures Next(w, MachineStep("a", Patch(self))).Some?
    ensures w.machines["a"].actor.pc.Completing? && w.machines["a"].actor.pc.via.ByBoot?
    ensures w.machines["a"].actor.local.desired == IMAGE && LastRecorded(first, log, "a") == IssuedOn(first, log, "a")
  {
    hide Ran, Next;
    first := OneHostOneMachine();
    BeginsFresh();
    log, w := Discovered(first, [], first, "h", PLAIN);
    log, w := ClaimedExactly(first, log, w);
    log, w := Adoption(first, log, w);
    log, w := WritesAhead(first, log, w);
    log, w := Installation(first, log, w);
    var id := w.hosts["h"].boot;
    log, w := Stashing(first, log, w, id);
    log, w := Polling(first, log, w, id);
    NeverReleased(first, log, w);
    CompletesOnItsHost(first, log, w, "a");
    self := Completed(w, id);
  }

  lemma Completed(w: World, id: BootId) returns (self: MachineRec)
    requires var s := Stored(StashedAt(id)); Stands(w, Actor(Completing(ByBoot, "v2"), s, s, "", false, false), s)
    ensures Next(w, MachineStep("a", Patch(self))).Some?
  {
    self := CompletedRec(Stored(StashedAt(id)).(talosVersion := "v2"));
  }
}
