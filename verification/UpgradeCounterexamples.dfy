/** What the code does not guarantee about upgrades: runs that complete an upgrade whose image
    was never installed, or that link a node whose version the host does not show. */
module UpgradeCounterexamples {
  import opened Common
  import opened Records
  import opened Discovery
  import opened HostProtocol
  import opened MachineProtocol
  import opened World
  import opened HostHistory
  import opened Ownership
  import opened Attempts
  import opened Reconciles
  import opened ClaimProperties
  import opened ResolvedHosts
  import opened UpgradeProperties
  import Lifecycle
  import opened Runs
  import opened Walkthrough

  // ---------- A version without a tag ----------

  /** Machine u is at rest, its upgrade in flight without a boot-id, and its host answers. */
  predicate Polled(w: World, u: Uid, name: HostName) {
    && u in w.machines && name in w.hosts
    && var m, s, h := w.machines[u], w.machines[u].stored, w.hosts[name];
    && m.actor.pc.Idle? && !m.gone && !s.deleting
    && s.resolvedHost == Some(name) && s.ready && s.providerID != "" && s.desired != ""
    && s.upgrade == InFlight && s.preRebootBoot == 0
    && h.versions != [] && Last(h.versions).claimRef == Some(u) && Last(h.versions).publicIP == s.resolvedIP
    && Accepts(h.config, m.spec, ClusterBundle) && h.running != ""
  }

  /** One poll, up to the answer of the version RPC. */
  function PollActs(s: MachineRec, h: Host, tag: string): seq<Act>
    requires h.versions != []
  {
    [Start(s.(finalizer := true), s.configSHA)] + ([ReadHost(Current(h))] + ([FetchConfig(true)] + [ReadVersion(Tag(tag))]))
  }

  /** The world after it: only machine u has moved. */
  function Answered(w: World, u: Uid, pc: Pc, tag: string): World
    requires u in w.machines
  {
    var m := w.machines[u];
    var s := m.stored.(finalizer := true);
    w.(machines := w.machines[u := m.(stored := s, actor := Actor(pc, s, s, s.configSHA, false, false),
                                     hist := m.hist.(started := m.hist.started + 1, emptyTag := m.hist.emptyTag || tag == ""))])
  }

  lemma PollBegins(w: World, u: Uid, name: HostName)
    requires Polled(w, u, name)
    ensures var w1, s := Started(w, u, w.machines[u].stored.configSHA), w.machines[u].stored.(finalizer := true);
            var a := Actor(Verify, s, s, s.configSHA, false, false);
            && Next(w, MachineStep(u, Start(s, s.configSHA))) == Some(w1) && At(w1, u, a) == w1
            && Next(At(w1, u, a), MachineStep(u, ReadHost(Current(w.hosts[name])))) ==
               Some(At(w1, u, a.(pc := NeedConfig(ForPoll))))
            && Next(At(w1, u, a.(pc := NeedConfig(ForPoll))), MachineStep(u, FetchConfig(true))) ==
               Some(At(w1, u, a.(pc := Fallback)))
  {
    hide Next;
    var s := w.machines[u].stored.(finalizer := true);
    var w1 := Started(w, u, s.configSHA);
    var a := Actor(Verify, s, s, s.configSHA, false, false);
    StartsAgain(w, u, s.configSHA);
    Moves(w1, u, a, ReadHost(Current(w.hosts[name])), a.(pc := NeedConfig(ForPoll)));
    Moves(w1, u, a.(pc := NeedConfig(ForPoll)), FetchConfig(true), a.(pc := Fallback));
  }

  lemma PollAnswers(w: World, u: Uid, name: HostName, tag: string)
    requires Polled(w, u, name) && (tag == "" || (tag == w.hosts[name].running && tag != w.machines[u].stored.talosVersion))
    ensures var w1, s := Started(w, u, w.machines[u].stored.configSHA), w.machines[u].stored.(finalizer := true);
            Next(At(w1, u, Actor(Fallback, s, s, s.configSHA, false, false)), MachineStep(u, ReadVersion(Tag(tag)))) ==
            Some(Answered(w, u, if tag == "" then HoldTag("") else Completing(ByTag, tag), tag))
  {
    var s := w.machines[u].stored.(finalizer := true);
    var w0 := At(Started(w, u, s.configSHA), u, Actor(Fallback, s, s, s.configSHA, false, false));
    var pc := if tag == "" then HoldTag("") else Completing(ByTag, tag);
    assert AfterVersion(w0.machines[u].actor, Tag(tag)) == Some(pc);
    assert Next(w0, MachineStep(u, ReadVersion(Tag(tag)))).value.machines == Answered(w, u, pc, tag).machines;
  }

  lemma PollRound(w: World, u: Uid, name: HostName, tag: string)
    requires Polled(w, u, name) && (tag == "" || (tag == w.hosts[name].running && tag != w.machines[u].stored.talosVersion))
    ensures Does(w, u, PollActs(w.machines[u].stored, w.hosts[name], tag)) ==
            Some(Answered(w, u, if tag == "" then HoldTag("") else Completing(ByTag, tag), tag))
  {
    hide Next, Does, Answered;
    PollBegins(w, u, name);
    PollAnswers(w, u, name, tag);
    var s, seen := w.machines[u].stored.(finalizer := true), ReadHost(Current(w.hosts[name]));
    var w1 := Started(w, u, s.configSHA);
    var a := Actor(Verify, s, s, s.configSHA, false, false);
    var answer := ReadVersion(Tag(tag));
    DoesOne(w, u, Start(s, s.configSHA), [seen] + ([FetchConfig(true)] + [answer]));
    DoesOne(w1, u, seen, [FetchConfig(true)] + [answer]);
    DoesOne(At(w1, u, a.(pc := NeedConfig(ForPoll))), u, FetchConfig(true), [answer]);
    assert [answer] + [] == [answer];
    DoesOne(At(w1, u, a.(pc := Fallback)), u, answer, []);
    DoesNothing(Answered(w, u, if tag == "" then HoldTag("") else Completing(ByTag, tag), tag), u);
  }

  lemma HoldsEmpty(w: World, u: Uid, name: HostName)
    requires Polled(w, u, name)
    ensures var s := w.machines[u].stored.(finalizer := true);
            var step := MachineStep(u, Patch(s.(talosVersion := "", probeFailures := 0)));
            && Next(Answered(w, u, HoldTag(""), ""), step).Some?
            && var w' := Next(Answered(w, u, HoldTag(""), ""), step).value;
            && w'.hosts == w.hosts && Polled(w', u, name) && w'.machines[u].stored.talosVersion == ""
            && w'.machines[u].hist.attempt == w.machines[u].hist.attempt
            && w'.machines[u].stored.desired == s.desired
  {
  }

  lemma CompletesByTag(w: World, u: Uid, name: HostName, tag: string)
    requires Polled(w, u, name)
    ensures var s := w.machines[u].stored.(finalizer := true);
            var step := MachineStep(u, Patch(CompletedRec(s.(talosVersion := tag, probeFailures := 0))));
            && Next(Answered(w, u, Completing(ByTag, tag), tag), step).Some?
            && var w' := Next(Answered(w, u, Completing(ByTag, tag), tag), step).value;
            && w'.hosts == w.hosts && u in w'.machines
            && w'.machines[u].stored.upgrade == NoUpgrade && w'.machines[u].stored.appliedRef == s.desired
            && w'.machines[u].hist.attempt == w.machines[u].hist.attempt
  {
  }

  /** The attempt in flight has written ahead on this host but installed nothing. */
  predicate Uninstalled(m: Machine, name: HostName) {
    m.hist.attempt.Some? && m.hist.attempt.value.host == name && m.hist.attempt.value.installed.None?
  }

  /** The version fallback is unsound when a version answer carries no tag: from every such
      state of a run, that answer followed by an honest one completes the upgrade although
      nothing was installed, while the host is neither rebooted nor otherwise touched. */
  lemma {:induction false} EmptyTagCompletes(first: World, log: seq<Step>, w: World, u: Uid, name: HostName)
    returns (log': seq<Step>, w': World)
    requires Ran(first, log, w) && Polled(w, u, name) && Uninstalled(w.machines[u], name)
    ensures Ran(first, log', w') && u in w'.machines && w'.hosts == w.hosts
    ensures w'.machines[u].stored.upgrade == NoUpgrade && w'.machines[u].stored.appliedRef == w.machines[u].stored.desired
    ensures w'.machines[u].hist.attempt == w.machines[u].hist.attempt
    ensures !ReallyUpgraded(w'.hosts[name], w'.machines[u].hist.attempt.value)
  {
    hide Ran, Next, Does, Answered, PollActs;
    HoldsEmpty(w, u, name);
    var hold := Patch(w.machines[u].stored.(finalizer := true).(talosVersion := "", probeFailures := 0));
    var w1 := Round(w, u, name, "", HoldTag(""), hold);
    ExtendDoes(first, log, w, u, PollActs(w.machines[u].stored, w.hosts[name], "") + [hold]);
    log' := log + AsSteps(u, PollActs(w.machines[u].stored, w.hosts[name], "") + [hold]);
    log', w' := TagCompletes(first, log', w1, u, name);
  }

  /** One poll that is answered with another tag. */
  lemma {:induction false} TagCompletes(first: World, log: seq<Step>, w: World, u: Uid, name: HostName)
    returns (log': seq<Step>, w': World)
    requires Ran(first, log, w) && Polled(w, u, name) && w.hosts[name].running != w.machines[u].stored.talosVersion
    ensures Ran(first, log', w') && u in w'.machines && w'.hosts == w.hosts
    ensures w'.machines[u].stored.upgrade == NoUpgrade && w'.machines[u].stored.appliedRef == w.machines[u].stored.desired
    ensures w'.machines[u].hist.attempt == w.machines[u].hist.attempt
  {
    hide Ran, Next, Does, Answered, PollActs;
    var tag := w.hosts[name].running;
    CompletesByTag(w, u, name, tag);
    var complete := Patch(CompletedRec(w.machines[u].stored.(finalizer := true).(talosVersion := tag, probeFailures := 0)));
    w' := Round(w, u, name, tag, Completing(ByTag, tag), complete);
    ExtendDoes(first, log, w, u, PollActs(w.machines[u].stored, w.hosts[name], tag) + [complete]);
    log' := log + AsSteps(u, PollActs(w.machines[u].stored, w.hosts[name], tag) + [complete]);
  }

  lemma Round(w: World, u: Uid, name: HostName, tag: string, pc: Pc, patch: Act) returns (w': World)
    requires Polled(w, u, name) && (tag == "" || (tag == w.hosts[name].running && tag != w.machines[u].stored.talosVersion))
    requires pc == if tag == "" then HoldTag("") else Completing(ByTag, tag)
    requires Next(Answered(w, u, pc, tag), MachineStep(u, patch)).Some?
    ensures Some(w') == Next(Answered(w, u, pc, tag), MachineStep(u, patch))
    ensures Does(w, u, PollActs(w.machines[u].stored, w.hosts[name], tag) + [patch]) == Some(w')
  {
    hide Next, Answered, PollActs, Does;
    w' := Next(Answered(w, u, pc, tag), MachineStep(u, patch)).value;
    PollRound(w, u, name, tag);
    DoesBoth(w, u, PollActs(w.machines[u].stored, w.hosts[name], tag), [patch]);
    assert [patch] + [] == [patch];
    DoesOne(Answered(w, u, pc, tag), u, patch, []);
    DoesNothing(w', u);
  }

  /** Nor is it sound when something else was waiting for a reboot: from every such state of a
      run, a power cycle and one honest answer complete the upgrade, and the host has the image
      it had before. */
  lemma {:induction false} PendingInstallCompletes(first: World, log: seq<Step>, w: World, u: Uid, name: HostName)
    returns (log': seq<Step>, w': World)
    requires Ran(first, log, w) && Polled(w, u, name) && Uninstalled(w.machines[u], name)
    requires w.hosts[name].installed != "" && w.hosts[name].installed != w.machines[u].stored.talosVersion
    ensures Ran(first, log', w') && u in w'.machines && name in w'.hosts && w'.hosts[name] == Rebooted(w.hosts[name])
    ensures w'.machines[u].stored.upgrade == NoUpgrade && w'.machines[u].stored.appliedRef == w.machines[u].stored.desired
    ensures w'.machines[u].hist.attempt == w.machines[u].hist.attempt
    ensures !ReallyUpgraded(w'.hosts[name], w'.machines[u].hist.attempt.value)
  {
    hide Ran, Next, Polled;
    PowerCycled(w, u, name);
    var w1 := Next(w, Outside(PowerCycle(name))).value;
    Extend(first, log, w, Outside(PowerCycle(name)), w1);
    log', w' := TagCompletes(first, log + [Outside(PowerCycle(name))], w1, u, name);
  }

  lemma PowerCycled(w: World, u: Uid, name: HostName)
    requires Polled(w, u, name) && w.hosts[name].installed != ""
    ensures Next(w, Outside(PowerCycle(name))).Some?
    ensures var w1 := Next(w, Outside(PowerCycle(name))).value;
            && Polled(w1, u, name) && w1.machines == w.machines && w1.hosts[name] == Rebooted(w.hosts[name])
  {
  }

  // ---------- Both happen ----------

  lemma PolledStand(w: World, actor: Actor, s: MachineRec)
    requires Stands(w, actor, s) && actor.pc.Idle? && Carries(w.hosts["h"], "v1")
    requires !s.deleting && s.resolvedHost == Some("h") && s.resolvedIP == "1" && s.ready && s.providerID != "" && s.desired != ""
    requires s.upgrade == InFlight && s.preRebootBoot == 0
    ensures Polled(w, "a", "h")
  {
  }

  /** A reconcile that crashes between the write-ahead and the install, and a version answer
      without a tag, complete an upgrade that was never begun. */
  lemma {:induction false} NeverInstalled() returns (first: World, log: seq<Step>, w: World)
    ensures Ran(first, log, w) && "a" in w.machines && "h" in w.hosts
    ensures w.machines["a"].stored.upgrade == NoUpgrade && w.machines["a"].stored.appliedRef == IMAGE
    ensures w.machines["a"].hist.attempt == Some(Attempt("h", "v1", IMAGE, true, None)) && w.hosts["h"].running == "v1"
  {
    hide Ran, Next, Polled;
    first := OneHostOneMachine();
    BeginsFresh();
    log, w := Discovered(first, [], first, "h", PLAIN);
    log, w := ClaimedExactly(first, log, w);
    log, w := Adoption(first, log, w);
    log, w := WritesAhead(first, log, w);
    var w1 := CrashesAt(w, Actor(Issue, FINALIZED, ISSUED, "", true, false), Stored(ISSUED));
    log := Goes(first, log, w, Abort, w1);
    PolledStand(w1, Actor(Idle, FINALIZED, ISSUED, "", true, false), Stored(ISSUED));
    log, w := EmptyTagCompletes(first, log, w1, "a", "h");
  }

  const OTHER_IMAGE := "factory.talos.dev/installer:v3"

  /** The records of a first upgrade that fails after its install, and of a second one. */
  const FAILED := ISSUED.(upgrade := Failed)
  const EDITED := FAILED.(desired := OTHER_IMAGE, generation := 3)
  const RETRIGGERED := EDITED.(upgrade := NoUpgrade)
  const REISSUED := RETRIGGERED.(upgrade := InFlight, attemptGeneration := 3)

  lemma InstallBreaks(w: World) returns (w': World)
    requires Stands(w, Actor(Issue, FINALIZED, ISSUED, "", true, false), Stored(ISSUED)) && Carries(w.hosts["h"], "v1")
    requires w.machines["a"].hist.attempt.Some?
    ensures Leads(w, Install(BrokenAfter("v2")), w', Actor(FailMark, FINALIZED, ISSUED, "", true, false), Stored(ISSUED))
    ensures var h := w'.hosts["h"]; Carries(h, "v1") && h.installed == "v2" && h.image == IMAGE
  {
    hide ClaimMove, AdoptMove, FinalMove, Intended, AfterPatch;
    w' := Next(w, MachineStep("a", Install(BrokenAfter("v2")))).value;
  }

  lemma ResetIsLost(w: World) returns (w': World)
    requires Stands(w, Actor(Evict, FINALIZED, FAILED, "", true, false), Stored(FAILED))
    ensures Leads(w, Reset(false), w', Actor(Idle, FINALIZED, FAILED, "", true, false), Stored(FAILED))
    ensures w'.hosts == w.hosts
  {
    hide ClaimMove, AdoptMove, UpgradeMove, Intended, AfterPatch;
    w' := Next(w, MachineStep("a", Reset(false))).value;
  }

  lemma DesiredIsEdited(w: World, actor: Actor) returns (w': World)
    requires Stands(w, actor, Stored(FAILED))
    ensures Next(w, Outside(EditDesired("a", OTHER_IMAGE))) == Some(w') && Stands(w', actor, EDITED)
    ensures w'.hosts == w.hosts
  {
    assert OTHER_IMAGE[|IMAGE| - 1] != IMAGE[|IMAGE| - 1];
    w' := Next(w, Outside(EditDesired("a", OTHER_IMAGE))).value;
  }

  lemma ReadsTagAgain(w: World) returns (w': World)
    requires Stands(w, Actor(PreProbe, EDITED, RETRIGGERED, "", false, false), RETRIGGERED)
    requires Carries(w.hosts["h"], "v1") && w.hosts["h"].installed == "v2"
    ensures Leads(w, ReadVersion(Tag("v1")), w', Actor(WriteAhead("v1"), EDITED, RETRIGGERED, "", false, false), RETRIGGERED)
    ensures w'.hosts == w.hosts && w'.machines["a"].hist.attempt == Some(Attempt("h", "v1", OTHER_IMAGE, false, None))
  {
    hide ClaimMove, AdoptMove, FinalMove, Intended, AfterPatch;
    w' := Next(w, MachineStep("a", ReadVersion(Tag("v1")))).value;
  }

  /** What the patches of the two upgrades store, and where they lead. */
  lemma FailurePatches(spec: MachineSpec)
    ensures PatchMachine(Stored(ISSUED), ISSUED, FAILED) == Stored(FAILED)
    ensures PatchMachine(EDITED, EDITED, RETRIGGERED) == RETRIGGERED
    ensures AfterPatch(spec, FailMark, FAILED, "") == Evict
    ensures AfterPatch(spec, Retrigger, RETRIGGERED, "") == NeedConfig(ForIssue)
  {
  }

  lemma SecondPatch(spec: MachineSpec)
    ensures PatchMachine(RETRIGGERED, EDITED, REISSUED) == REISSUED
    ensures AfterPatch(spec, WriteAhead("v1"), REISSUED, "") == Issue
  {
  }

  lemma {:induction false} FirstFails(first: World, log: seq<Step>, w: World)
    returns (log': seq<Step>, w': World)
    requires Ran(first, log, w) && Stands(w, Actor(Issue, FINALIZED, ISSUED, "", true, false), Stored(ISSUED))
    requires Carries(w.hosts["h"], "v1") && w.machines["a"].hist.attempt.Some?
    ensures Ran(first, log', w') && Stands(w', Actor(Idle, FINALIZED, FAILED, "", true, false), EDITED)
    ensures var h := w'.hosts["h"]; Carries(h, "v1") && h.installed == "v2" && h.image == IMAGE
  {
    hide Ran, Next, AfterPatch, PatchMachine;
    FailurePatches(w.machines["a"].spec);
    w' := InstallBreaks(w);
    log' := Goes(first, log, w, Install(BrokenAfter("v2")), w');
    var w2 := CommitsOf(w', w'.machines["a"].actor, Stored(ISSUED), FAILED);
    log' := Goes(first, log', w', Patch(FAILED), w2);
    w' := ResetIsLost(w2);
    log' := Goes(first, log', w2, Reset(false), w');
    w2 := DesiredIsEdited(w', w'.machines["a"].actor);
    Extend(first, log', w', Outside(EditDesired("a", OTHER_IMAGE)), w2);
    log', w' := log' + [Outside(EditDesired("a", OTHER_IMAGE))], w2;
  }

  lemma {:induction false} SecondIsWrittenAhead(first: World, log: seq<Step>, w: World)
    returns (log': seq<Step>, w': World)
    requires Ran(first, log, w) && Stands(w, Actor(Idle, FINALIZED, FAILED, "", true, false), EDITED)
    requires Carries(w.hosts["h"], "v1") && w.hosts["h"].installed == "v2"
    ensures Ran(first, log', w') && Stands(w', Actor(Issue, EDITED, REISSUED, "", false, false), REISSUED)
    ensures w'.hosts == w.hosts && w'.machines["a"].hist.attempt == Some(Attempt("h", "v1", OTHER_IMAGE, false, None))
  {
    hide Ran, Next, AfterPatch, PatchMachine;
    log', w' := FailureRetriggers(first, log, w);
    var w2 := FetchesAgain(w');
    log' := Goes(first, log', w', FetchConfig(true), w2);
    w' := ReadsTagAgain(w2);
    log' := Goes(first, log', w2, ReadVersion(Tag("v1")), w');
    SecondPatch(w'.machines["a"].spec);
    w2 := CommitsOf(w', w'.machines["a"].actor, RETRIGGERED, REISSUED);
    log' := Goes(first, log', w', Patch(REISSUED), w2);
    w' := w2;
  }

  lemma FetchesAgain(w: World) returns (w': World)
    requires Stands(w, Actor(NeedConfig(ForIssue), EDITED, RETRIGGERED, "", false, false), RETRIGGERED)
    ensures Leads(w, FetchConfig(true), w', Actor(PreProbe, EDITED, RETRIGGERED, "", false, false), RETRIGGERED)
    ensures w'.hosts == w.hosts
  {
    hide Next;
    w' := Answers(w, w.machines["a"].actor, RETRIGGERED, FetchConfig(true), PreProbe, false);
  }

  lemma {:induction false} FailureRetriggers(first: World, log: seq<Step>, w: World)
    returns (log': seq<Step>, w': World)
    requires Ran(first, log, w) && Stands(w, Actor(Idle, FINALIZED, FAILED, "", true, false), EDITED)
    ensures Ran(first, log', w') && w'.hosts == w.hosts
    ensures Stands(w', Actor(NeedConfig(ForIssue), EDITED, RETRIGGERED, "", false, false), RETRIGGERED)
  {
    hide Ran, Next, AfterPatch, PatchMachine;
    FailurePatches(w.machines["a"].spec);
    w' := StartsOver(w, w.machines["a"].actor, EDITED);
    log' := Goes(first, log, w, Start(EDITED, ""), w');
    var read := ReadHost(Current(w.hosts["h"]));
    var w2 := Answers(w', w'.machines["a"].actor, EDITED, read, Retrigger, false);
    log' := Goes(first, log', w', read, w2);
    w' := CommitsOf(w2, w2.machines["a"].actor, EDITED, RETRIGGERED);
    log' := Goes(first, log', w2, Patch(RETRIGGERED), w');
  }

  /** An install that reports an error after it has changed the disk, a lost reset, another
      desired version, a crash before its install, and a power cycle: the second upgrade is
      recorded as complete, and the host runs the first. */
  lemma {:induction false} CompletesWithTheOther() returns (first: World, log: seq<Step>, w: World)
    ensures Ran(first, log, w) && "a" in w.machines && "h" in w.hosts
    ensures w.machines["a"].stored.upgrade == NoUpgrade && w.machines["a"].stored.appliedRef == OTHER_IMAGE
    ensures w.hosts["h"].image == IMAGE && w.hosts["h"].running == "v2"
  {
    hide Ran, Next, Polled;
    first := OneHostOneMachine();
    BeginsFresh();
    log, w := Discovered(first, [], first, "h", PLAIN);
    log, w := ClaimedExactly(first, log, w);
    log, w := Adoption(first, log, w);
    log, w := WritesAhead(first, log, w);
    log, w := FirstFails(first, log, w);
    log, w := SecondIsWrittenAhead(first, log, w);
    var w1 := CrashesAt(w, Actor(Issue, EDITED, REISSUED, "", false, false), REISSUED);
    log := Goes(first, log, w, Abort, w1);
    PolledStand(w1, Actor(Idle, EDITED, REISSUED, "", false, false), REISSUED);
    log, w := PendingInstallCompletes(first, log, w1, "a", "h");
  }

  // ---------- A host that is not the attempt's ----------

  /** Hosts h and k, and a machine that takes any host. */
  function TwoHosts(): World {
    World(map["h" := Host([NEW_HOST], false, 1, IDLE_HOST, Empty, 0, "", "", "", 0),
              "k" := Host([NEW_HOST.(publicIP := "2")], false, 1, IDLE_HOST, Empty, 0, "", "", "", 0)],
          map["a" := Machine(SPEC.(hostRef := None), WANTED, false, IDLE_MACHINE, NO_HISTORY)])
  }

  lemma TwoBegin()
    ensures var w := TwoHosts();
            Ran(w, [], w) && FreshHost(w.hosts["h"]) && FreshHost(w.hosts["k"])
  {
    hide Next;
    assert "1" != "2" by { assert "1"[0] != "2"[0]; }
    assert Init(TwoHosts());
  }

  /** Both hosts are there to be claimed; k has since got a config with the cluster's bundle. */
  predicate BothFree(w: World) {
    && w.machines == TwoHosts().machines && w.hosts.Keys == {"h", "k"}
    && var h, k := w.hosts["h"], w.hosts["k"];
    && Claimable(h) && Claimable(k) && h.config.Empty? && k.config == Configured(None, "c")
    && Last(h.versions).publicIP == "1" && Last(k.versions).publicIP == "2"
    && h.versions[0] == NEW_HOST && h.boot == 0 && k.boot == 0 && k.image == ""
  }

  lemma {:induction false} BothDiscovered() returns (first: World, log: seq<Step>, w: World)
    ensures Ran(first, log, w) && first == TwoHosts() && BothFree(w)
  {
    hide Ran, Claimable;
    first := TwoHosts();
    TwoBegin();
    log, w := Discovered(first, [], first, "h", PLAIN);
    var h := w.hosts["h"];
    assert h.versions[0] == NEW_HOST;
    log, w := Discovered(first, log, w, "k", PLAIN);
    assert w.hosts["h"] == h;
    var event := Outside(ConfigureByHand("k", "c"));
    var w1 := Next(w, event).value;
    Extend(first, log, w, event, w1);
    StaysClaimable(w.hosts["k"], w1.hosts["k"]);
    log, w := log + [event], w1;
  }

  lemma StaysClaimable(h: Host, h': Host)
    requires Claimable(h) && h'.versions == h.versions && h'.gone == h.gone
    ensures Claimable(h')
  {
  }

  function Both(w: World): seq<Listed>
    requires "h" in w.hosts && "k" in w.hosts && w.hosts["h"].versions != [] && w.hosts["k"].versions != []
  {
    var v, x := w.hosts["h"].versions, w.hosts["k"].versions;
    [Listed("h", |v| - 1, Last(v)), Listed("k", |x| - 1, Last(x))]
  }

  lemma BothListed(w: World)
    requires "h" in w.hosts && "k" in w.hosts && w.hosts["h"].versions != [] && Claimable(w.hosts["k"])
    ensures Listing(w.hosts, Both(w))
    ensures var best := LeastCandidate(Both(w), "a", "");
            best == Some(if Candidate(Last(w.hosts["h"].versions), "a", "") then Both(w)[0] else Both(w)[1])
  {
    var items := Both(w);
    assert items[1..] == [items[1]] && items[1..][1..] == [];
    assert LeastCandidate(items[1..], "a", "") == Some(items[1]);
    assert !StringLess("k", "h");
  }

  /** The machine lists both hosts and reads the first: it is about to claim h. */
  lemma {:induction false} TakesFirst(first: World, log: seq<Step>, w: World)
    returns (log': seq<Step>, w': World)
    requires Ran(first, log, w) && BothFree(w)
    ensures Ran(first, log', w') && w'.hosts == w.hosts && w'.machines.Keys == {"a"}
    ensures var m, v := w'.machines["a"], w.hosts["h"].versions;
            && m.actor == Actor(CasPut("h", "1", |v| - 1, Last(v)), FINALIZED, FINALIZED, "", false, false)
            && m.stored == FINALIZED && !m.gone && !m.hist.released && m.spec == SPEC.(hostRef := None)
  {
    hide Ran, Next, LeastCandidate, Candidate, Listing;
    var a1 := Actor(Select, FINALIZED, FINALIZED, "", false, false);
    var a2 := a1.(pc := CasGet("h", "1"));
    var a3 := a1.(pc := CasPut("h", "1", |w.hosts["h"].versions| - 1, Last(w.hosts["h"].versions)));
    var w1 := StartsNew(w);
    log' := Goes(first, log, w, Start(FINALIZED, ""), w1);
    BothListed(w1);
    FirstIsCandidate(w1);
    MovesTo(w1, "a", ListHosts(Both(w1)), a2);
    var w2 := At(w1, "a", a2);
    log' := Goes(first, log', w1, ListHosts(Both(w1)), w2);
    var read := ReadHost(Current(w.hosts["h"]));
    MovesTo(w2, "a", read, a3);
    w' := At(w2, "a", a3);
    log' := Goes(first, log', w2, read, w');
  }

  lemma FirstIsCandidate(w: World)
    requires "h" in w.hosts && Claimable(w.hosts["h"])
    ensures Candidate(Last(w.hosts["h"].versions), "a", "")
  {
  }

  lemma StartsNew(w: World) returns (w': World)
    requires w.machines == TwoHosts().machines
    ensures Next(w, MachineStep("a", Start(FINALIZED, ""))) == Some(w') && w'.hosts == w.hosts && w'.machines.Keys == {"a"}
    ensures var m := w'.machines["a"];
            && m.actor == Actor(Select, FINALIZED, FINALIZED, "", false, false) && m.stored == FINALIZED
            && !m.gone && !m.hist.released && m.spec == SPEC.(hostRef := None)
  {
    hide ClaimMove, AdoptMove, UpgradeMove, FinalMove, Intended, AfterPatch;
    w' := Next(w, MachineStep("a", Start(FINALIZED, ""))).value;
  }

  /** Machine a has an upgrade in flight on h, and k is there to be claimed. */
  predicate Divided(w: World, id: BootId) {
    && Stands(w, Actor(Idle, FINALIZED, StashedAt(id), "", true, false), Stored(StashedAt(id))) && id > 1
    && w.machines["a"].spec == SPEC.(hostRef := None) && Beckons(w)
    && w.machines["a"].hist.attempt.Some? && w.machines["a"].hist.attempt.value.host == "h"
  }

  predicate Beckons(w: World) {
    && "h" in w.hosts && "k" in w.hosts
    && var h, k := w.hosts["h"], w.hosts["k"];
    && h.versions != [] && h.versions[0] == NEW_HOST && Last(h.versions).phase == Phase.Claimed
    && Claimable(k) && Last(k.versions).publicIP == "2" && k.config == Configured(None, "c") && k.boot == 0 && k.image == ""
  }

  lemma {:induction false} InFlightOnFirst() returns (first: World, log: seq<Step>, w: World, id: BootId)
    ensures Ran(first, log, w) && Divided(w, id)
  {
    hide Ran, Next, Claimable;
    first, log, w := BothDiscovered();
    log, w := TakesFirst(first, log, w);
    log, w := ClaimCommitted(first, log, w);
    log, w := Adoption(first, log, w);
    log, w := WritesAhead(first, log, w);
    log, w := Installation(first, log, w);
    id := w.hosts["h"].boot;
    log, w := Stashing(first, log, w, id);
  }

  /** The records while the machine moves to k. */
  function Cleared(id: BootId): MachineRec {
    Stored(StashedAt(id)).(resolvedHost := None, resolvedIP := "")
  }

  function Moved(id: BootId): MachineRec {
    Stored(StashedAt(id)).(resolvedHost := Some("k"), resolvedIP := "2")
  }

  lemma MovingPatches(spec: MachineSpec, id: BootId)
    requires id > 1
    ensures var s := Stored(StashedAt(id));
            && PatchMachine(s, s, Cleared(id)) == Cleared(id) && PatchMachine(Cleared(id), s, Moved(id)) == Moved(id)
            && AfterPatch(spec, ClearClaim, Cleared(id), "") == Select
            && AfterPatch(spec, Record("k", "2"), Moved(id), "") == NeedConfig(ForPoll)
  {
  }

  /** A read of the very first version of h makes the machine give it up. */
  lemma {:induction false} GivesUpFirst(first: World, log: seq<Step>, w: World, id: BootId)
    returns (log': seq<Step>, w': World)
    requires Ran(first, log, w) && Divided(w, id)
    ensures Ran(first, log', w') && w'.hosts == w.hosts && w'.machines.Keys == {"a"}
    ensures Stands(w', Actor(Select, Stored(StashedAt(id)), Cleared(id), "", false, false), Cleared(id))
    ensures w'.machines["a"].spec == w.machines["a"].spec
    ensures w'.machines["a"].hist.attempt == w.machines["a"].hist.attempt
  {
    hide Ran, Next, AfterPatch, PatchMachine, Claimable;
    var s := Stored(StashedAt(id));
    w' := StartsOver(w, w.machines["a"].actor, s);
    log' := Goes(first, log, w, Start(s, ""), w');
    var read := ReadHost(Version(0, NEW_HOST));
    var w2 := Answers(w', w'.machines["a"].actor, s, read, ClearClaim, false);
    log' := Goes(first, log', w', read, w2);
    MovingPatches(w2.machines["a"].spec, id);
    w' := CommitsOf(w2, w2.machines["a"].actor, s, Cleared(id));
    log' := Goes(first, log', w2, Patch(Cleared(id)), w');
  }

  /** It lists both hosts, of which only k can be claimed, and reads k. */
  lemma {:induction false} ChoosesSecond(first: World, log: seq<Step>, w: World, id: BootId)
    returns (log': seq<Step>, w': World)
    requires Ran(first, log, w) && Stands(w, Actor(Select, Stored(StashedAt(id)), Cleared(id), "", false, false), Cleared(id))
    requires Beckons(w) && w.machines["a"].spec == SPEC.(hostRef := None)
    ensures Ran(first, log', w') && w'.hosts == w.hosts
    ensures var v := w.hosts["k"].versions;
            Stands(w', Actor(CasPut("k", "2", |v| - 1, Last(v)), Stored(StashedAt(id)), Cleared(id), "", false, false), Cleared(id))
    ensures w'.machines["a"].hist.attempt == w.machines["a"].hist.attempt
  {
    hide Ran, Next, LeastCandidate, Listing;
    BothListed(w);
    var v := w.hosts["k"].versions;
    w' := Answers(w, w.machines["a"].actor, Cleared(id), ListHosts(Both(w)), CasGet("k", "2"), false);
    log' := Goes(first, log, w, ListHosts(Both(w)), w');
    var read := ReadHost(Current(w.hosts["k"]));
    var w2 := Answers(w', w'.machines["a"].actor, Cleared(id), read, CasPut("k", "2", |v| - 1, Last(v)), false);
    log' := Goes(first, log', w', read, w2);
    w' := w2;
  }

  /** It claims and records k, and polls there. */
  lemma {:induction false} ClaimsSecond(first: World, log: seq<Step>, w: World, id: BootId)
    returns (log': seq<Step>, w': World)
    requires Ran(first, log, w) && id > 1 && Beckons(w)
    requires var v := w.hosts["k"].versions;
             Stands(w, Actor(CasPut("k", "2", |v| - 1, Last(v)), Stored(StashedAt(id)), Cleared(id), "", false, false), Cleared(id))
    ensures Ran(first, log', w') && OnSecond(w')
    ensures Stands(w', Actor(NeedConfig(ForPoll), Stored(StashedAt(id)), Moved(id), "", false, false), Moved(id))
    ensures w'.machines["a"].hist.attempt == w.machines["a"].hist.attempt
  {
    hide Ran, Next, AfterPatch, PatchMachine;
    var s := Stored(StashedAt(id));
    var rec := Last(w.hosts["k"].versions).(claimRef := Some("a"), phase := Phase.Claimed);
    Wins(w, "a", "k");
    w' := Next(w, MachineStep("a", PutStatus(rec, true))).value;
    log' := Goes(first, log, w, PutStatus(rec, true), w');
    MovingPatches(w'.machines["a"].spec, id);
    var w2 := CommitsOf(w', w'.machines["a"].actor, Cleared(id), Moved(id));
    log' := Goes(first, log', w', Patch(Moved(id)), w2);
    w' := w2;
  }

  predicate OnSecond(w: World) {
    && "k" in w.hosts
    && var k := w.hosts["k"]; k.config == Configured(None, "c") && k.boot == 0 && k.image == ""
  }

  lemma LosesTag(w: World, id: BootId) returns (w': World)
    requires Stands(w, Actor(PollTag, Stored(StashedAt(id)), Moved(id), "", false, false), Moved(id))
    ensures Leads(w, ReadVersion(NoVersion), w',
                  Actor(Completing(ByBoot, "v1"), Stored(StashedAt(id)), Moved(id), "", false, false), Moved(id))
    ensures w'.hosts == w.hosts && w'.machines["a"].hist.attempt == w.machines["a"].hist.attempt
  {
    hide ClaimMove, AdoptMove, FinalMove, Intended, AfterPatch;
    w' := Next(w, MachineStep("a", ReadVersion(NoVersion))).value;
  }

  lemma {:induction false} PollsSecond(first: World, log: seq<Step>, w: World, id: BootId)
    returns (log': seq<Step>, w': World)
    requires Ran(first, log, w) && id > 1 && OnSecond(w)
    requires Stands(w, Actor(NeedConfig(ForPoll), Stored(StashedAt(id)), Moved(id), "", false, false), Moved(id))
    ensures Ran(first, log', w') && w'.hosts == w.hosts
    ensures Stands(w', Actor(Completing(ByBoot, "v1"), Stored(StashedAt(id)), Moved(id), "", false, false), Moved(id))
    ensures w'.machines["a"].hist.attempt == w.machines["a"].hist.attempt
  {
    hide Ran, Next;
    w' := Answers(w, w.machines["a"].actor, Moved(id), FetchConfig(true), PollBoot, false);
    log' := Goes(first, log, w, FetchConfig(true), w');
    var w2 := Answers(w', w'.machines["a"].actor, Moved(id), ReadBoot(Boot(1)), PollTag, false);
    log' := Goes(first, log', w', ReadBoot(Boot(1)), w2);
    w' := LosesTag(w2, id);
    log' := Goes(first, log', w2, ReadVersion(NoVersion), w');
  }

  lemma CompletesMoved(w: World, id: BootId) returns (self: MachineRec, w': World)
    requires Stands(w, Actor(Completing(ByBoot, "v1"), Stored(StashedAt(id)), Moved(id), "", false, false), Moved(id))
    ensures Next(w, MachineStep("a", Patch(self))) == Some(w') && "a" in w'.machines
    ensures w'.machines["a"].stored.upgrade == NoUpgrade && w'.machines["a"].stored.appliedRef == IMAGE
  {
    self := CompletedRec(Moved(id).(talosVersion := "v1"));
    w' := CommitsOf(w, w.machines["a"].actor, Moved(id), self);
  }

  /** A stale read lets a machine give up the host of its upgrade for another one, whose
      boot-id the poll then takes for a reboot: the upgrade is recorded as complete on a host
      that was never upgraded, nothing having been stolen or released. The host given up stays
      claimed, and nobody remembers that claim. */
  lemma {:induction false} CompletesElsewhere()
    returns (first: World, log: seq<Step>, w: World, self: MachineRec, w': World)
    ensures Ran(first, log, w) && NothingStolen(first, log) && "a" in w.machines && !w.machines["a"].hist.released
    ensures Next(w, MachineStep("a", Patch(self))) == Some(w') && "a" in w'.machines
    ensures w.machines["a"].actor.pc.Completing? && w.machines["a"].actor.pc.via.ByBoot?
    ensures LastRecorded(first, log, "a") != IssuedOn(first, log, "a")
    ensures w.machines["a"].hist.attempt.Some? && Target(w.machines["a"].actor) == "k" && "k" in w.hosts
    ensures !ReallyUpgraded(w.hosts["k"], w.machines["a"].hist.attempt.value) && w.hosts["k"].image == ""
    ensures w'.machines["a"].stored.upgrade == NoUpgrade && w'.machines["a"].stored.appliedRef == IMAGE
    ensures Orphaned(w, "h")
  {
    hide Ran, Next, NothingStolen, LastRecorded, IssuedOn;
    var id;
    first, log, w, id := InFlightOnFirst();
    log, w := GivesUpFirst(first, log, w, id);
    log, w := ChoosesSecond(first, log, w, id);
    log, w := ClaimsSecond(first, log, w, id);
    log, w := PollsSecond(first, log, w, id);
    NeverReleased(first, log, w);
    self, w' := CompletesMoved(w, id);
    CompletesOnItsHost(first, log, w, "a");
  }

  // ---------- A mirror that is out of date ----------

  /** A reconcile of host h that nothing overlaps. */
  lemma {:induction false} TendsFirst(first: World, log: seq<Step>, w: World, probe: bool, found: Option<DiscoveryResult>)
    returns (log': seq<Step>, w': World)
    requires Ran(first, log, w) && "h" in w.hosts
    requires var h := w.hosts["h"];
             && h.versions != [] && !h.gone && h.actor.pc.HostIdle? && h.config.Empty?
             && Last(h.versions).finalizer && !Last(h.versions).deleting && Last(h.versions).phase != Phase.Claimed
    ensures Ran(first, log', w') && w'.machines == w.machines && "h" in w'.hosts
    ensures var h, h' := w.hosts["h"], w'.hosts["h"];
            && h'.versions == h.versions + [Lifecycle.Tended(Last(h.versions), h.threshold, probe, found)]
            && h'.gone == h.gone && h'.actor.pc.HostIdle? && h'.threshold == h.threshold && h'.config == h.config
  {
    hide Ran, Lifecycle.HostDoes, Lifecycle.Tended, Lifecycle.ReadAndTend;
    var h := w.hosts["h"];
    Lifecycle.TendingRefines(h, probe, found);
    var acts := Lifecycle.ReadAndTend(h, probe, found);
    ExtendHostDoes(first, log, w, "h", acts);
    log' := log + AsHostSteps("h", acts);
    w' := w.(hosts := w.hosts["h" := Lifecycle.HostDoes(h, acts).value]);
  }

  const OLD := PLAIN.(talosVersion := "v1")
  const NEW := PLAIN.(talosVersion := "v2")

  /** A host that was discovered with v2, and then again with v1. */
  predicate Downgraded(h: Host, i: nat) {
    && Claimable(h) && h.config.Empty? && Last(h.versions).publicIP == "1" && Last(h.versions).talosVersion == "v1"
    && i < |h.versions| && h.versions[i].talosVersion == "v2"
  }

  lemma TendedTwice(r: HostRec)
    requires r.phase == Available && r.finalizer && !r.deleting && r.claimRef.None?
    ensures var s := Lifecycle.Tended(r, 1, false, None);
            && s.phase == Unavailable && s.finalizer && !s.deleting && s.claimRef.None? && s.publicIP == r.publicIP
            && var t := Lifecycle.Tended(s, 1, true, Some(OLD));
            && t.phase == Available && t.probed && t.finalizer && !t.deleting && t.claimRef.None? && t.publicIP == r.publicIP
            && t.talosVersion == "v1"
  {
    hide DiscoveryLabels;
  }

  lemma {:induction false} IsDowngraded() returns (first: World, log: seq<Step>, w: World, i: nat)
    ensures Ran(first, log, w) && w.machines == OneHostOneMachine().machines
    ensures "h" in w.hosts && Downgraded(w.hosts["h"], i)
  {
    hide Ran, Lifecycle.Tended;
    first := OneHostOneMachine();
    BeginsFresh();
    log, w := Discovered(first, [], first, "h", NEW);
    var v := w.hosts["h"].versions;
    i := |v| - 1;
    TendedTwice(Last(v));
    log, w := TendsFirst(first, log, w, false, None);
    log, w := TendsFirst(first, log, w, true, Some(OLD));
    assert w.hosts["h"].versions[i] == v[i];
  }

  /** The record of the completed upgrade. */
  function CompletedAt(id: BootId): MachineRec {
    CompletedRec(Stored(StashedAt(id)).(talosVersion := "v2"))
  }

  lemma CompletionPatches(spec: MachineSpec, id: BootId)
    ensures var s := Stored(StashedAt(id)); PatchMachine(s, s, CompletedAt(id)) == CompletedAt(id)
    ensures AfterPatch(spec, Completing(ByBoot, "v2"), CompletedAt(id), "") == MirrorGet
  {
  }

  lemma {:induction false} CompletesFirst(first: World, log: seq<Step>, w: World, id: BootId)
    returns (log': seq<Step>, w': World)
    requires var s := Stored(StashedAt(id));
             Ran(first, log, w) && Stands(w, Actor(Completing(ByBoot, "v2"), s, s, "", false, false), s)
    ensures Ran(first, log', w') && w'.hosts == w.hosts
    ensures Stands(w', Actor(MirrorGet, Stored(StashedAt(id)), CompletedAt(id), "", false, false), CompletedAt(id))
  {
    hide Ran, Next, PatchMachine, AfterPatch;
    CompletionPatches(w.machines["a"].spec, id);
    w' := CommitsOf(w, w.machines["a"].actor, Stored(StashedAt(id)), CompletedAt(id));
    log' := Goes(first, log, w, Patch(CompletedAt(id)), w');
  }

  /** The read that lets a reconcile on to the link may be of a version that the host has left
      behind: the machine links with v2, and its host shows v1. */
  lemma {:induction false} MirrorIsStale() returns (first: World, log: seq<Step>, w: World, act: Act, w': World)
    ensures Ran(first, log, w) && Next(w, MachineStep("a", act)) == Some(w') && "a" in w.machines && "a" in w'.machines
    ensures !w.machines["a"].actor.pc.Link? && w'.machines["a"].actor.pc.Link?
    ensures var l := w'.machines["a"].actor.local; Upgraded(l) && l.talosVersion == "v2" && l.resolvedHost == Some("h")
    ensures "h" in w'.hosts && !w'.hosts["h"].gone && w'.hosts["h"].versions != []
    ensures Last(w'.hosts["h"].versions).talosVersion == "v1"
  {
    hide Ran, Next;
    var i;
    first, log, w, i := IsDowngraded();
    var v := w.hosts["h"].versions;
    log, w := ClaimedExactly(first, log, w);
    assert w.hosts["h"].versions[i] == v[i] && Last(w.hosts["h"].versions).talosVersion == "v1";
    log, w := Adoption(first, log, w);
    log, w := WritesAhead(first, log, w);
    log, w := Installation(first, log, w);
    var id := w.hosts["h"].boot;
    log, w := Stashing(first, log, w, id);
    log, w := Polling(first, log, w, id);
    log, w := CompletesFirst(first, log, w, id);
    act := ReadHost(Version(i, v[i]));
    w' := ReadsMirror(w, id, i);
  }

  lemma ReadsMirror(w: World, id: BootId, i: nat) returns (w': World)
    requires Stands(w, Actor(MirrorGet, Stored(StashedAt(id)), CompletedAt(id), "", false, false), CompletedAt(id))
    requires i < |w.hosts["h"].versions| && w.hosts["h"].versions[i].talosVersion == "v2"
    ensures Leads(w, ReadHost(Version(i, w.hosts["h"].versions[i])), w',
                  Actor(Link, Stored(StashedAt(id)), CompletedAt(id), "", false, false), CompletedAt(id))
    ensures w'.hosts == w.hosts
  {
    hide Next;
    w' := Answers(w, w.machines["a"].actor, CompletedAt(id), ReadHost(Version(i, w.hosts["h"].versions[i])), Link, false);
  }
}
