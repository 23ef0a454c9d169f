/** What the reconcilers call: the API server, the machines' RPCs and, while a call is under
    way, everybody else. Every call is any number of steps of the others and then one step
    of the caller, so whatever reconcilers do through this class is a run of the World. */
module Cluster {
  import opened Common
  import opened Records
  import opened HostProtocol
  import opened MachineProtocol
  import opened World
  import opened HostHistory
  import opened Reconciles
  import opened Attempts
  import opened ClaimProperties
  import opened UpgradeProperties

  predicate Foreign(u: Uid, steps: seq<Step>) {
    forall i :: 0 <= i < |steps| ==> !(steps[i].MachineStep? && steps[i].u == u)
  }

  lemma {:induction false} OthersPlay(w: World, u: Uid, steps: seq<Step>)
    requires u in w.machines && Foreign(u, steps) && Play(w, steps).Some?
    ensures u in Play(w, steps).value.machines
    ensures var m, m' := w.machines[u], Play(w, steps).value.machines[u];
            m'.spec == m.spec && m'.actor == m.actor && m'.hist == m.hist && SpecEdit(m.stored, m'.stored)
  {
    hide Next;
    if steps != [] {
      var before := steps[..|steps| - 1];
      OthersPlay(w, u, before);
      OthersStep(Play(w, before).value, Last(steps), u);
    }
  }

  lemma {:induction false} RunOn(first: World, log: seq<Step>, w: World, more: seq<Step>, w': World)
    requires Ran(first, log, w) && Play(w, more) == Some(w')
    ensures Ran(first, log + more, w')
  {
    hide Init;
    PlayOn(first, log, w, more);
  }

  lemma OneStep(w: World, step: Step)
    ensures Play(w, [step]) == Next(w, step)
  {
    hide Next;
    assert [step][..0] == [];
  }

  predicate Elsewhere(name: HostName, steps: seq<Step>) {
    forall i :: 0 <= i < |steps| ==> !(steps[i].HostStep? && steps[i].host == name)
  }

  lemma {:induction false} OthersPlayHost(first: World, log: seq<Step>, w: World, name: HostName, steps: seq<Step>)
    requires Ran(first, log, w) && name in w.hosts && Elsewhere(name, steps) && Play(w, steps).Some?
    ensures name in Play(w, steps).value.hosts
    ensures var h, h' := w.hosts[name], Play(w, steps).value.hosts[name]; h'.actor == h.actor && h'.threshold == h.threshold
  {
    hide Init, Next;
    if steps != [] {
      var before := steps[..|steps| - 1];
      OthersPlayHost(first, log, w, name, before);
      RunOn(first, log, w, before, Play(w, before).value);
      RecordedAlways(first, log + before);
      SameNames(Play(w, before).value, Last(steps));
      HostWaits(Play(w, before).value, Last(steps), name);
    }
  }

  lemma {:induction false} QuietHost(log: seq<Step>, name: HostName, steps: seq<Step>)
    requires Elsewhere(name, steps)
    ensures HostActs(log + steps, name) == HostActs(log, name)
  {
    if steps == [] {
      assert log + steps == log;
    } else {
      var before := steps[..|steps| - 1];
      QuietHost(log, name, before);
      HostActsSnoc(log + before, Last(steps), name);
      assert log + before + [Last(steps)] == log + steps;
    }
  }

  lemma {:induction false} QuietMachine(log: seq<Step>, u: Uid, steps: seq<Step>)
    requires Foreign(u, steps)
    ensures Acts(log + steps, u) == Acts(log, u)
  {
    if steps == [] {
      assert log + steps == log;
    } else {
      var before := steps[..|steps| - 1];
      QuietMachine(log, u, before);
      ActsSnoc(log + before, Last(steps), u);
      assert log + before + [Last(steps)] == log + steps;
    }
  }

  lemma HostWaits(w: World, step: Step, name: HostName)
    requires Next(w, step).Some? && name in w.hosts && name in Next(w, step).value.hosts
    requires !(step.HostStep? && step.host == name)
    ensures var h, h' := w.hosts[name], Next(w, step).value.hosts[name]; h'.actor == h.actor && h'.threshold == h.threshold
  {
    hide Next, HostNext, HostEvent, Move, Possible, HostsAfter, StoredAfter, HistoryAfter;
    if step.MachineStep? {
      OwnStep(w, step.u, step.act);
      SettingsByAct(w.hosts, step.u, w.machines[step.u], step.act, name);
    } else {
      UnclaimedStep(w, step);
      if step.Outside? && Next(w, step).value.hosts != w.hosts && step.event.host == name {
        SettingsByEvent(w.hosts[name], step.event);
      }
    }
  }

  lemma OwnHostStep(w: World, name: HostName, act: HostAct)
    requires name in w.hosts && HostPossible(w.hosts[name], act)
    requires HostMove(w.hosts[name].actor, w.hosts[name].threshold, act).Some?
    ensures Next(w, HostStep(name, act)).Some?
    ensures var w' := Next(w, HostStep(name, act)).value;
            && name in w'.hosts && w'.hosts[name].threshold == w.hosts[name].threshold
            && HostMove(w.hosts[name].actor, w.hosts[name].threshold, act) == Some(w'.hosts[name].actor)
  {
    hide HostMove, PatchHost;
  }

  lemma SettingsByAct(hosts: map<HostName, Host>, u: Uid, m: Machine, act: Act, name: HostName)
    requires Possible(hosts, m, act) && name in hosts && name in HostsAfter(hosts, u, m, act)
    ensures var h, h' := hosts[name], HostsAfter(hosts, u, m, act)[name]; h'.actor == h.actor && h'.threshold == h.threshold
  {
  }

  lemma SettingsByEvent(h: Host, event: Event)
    requires HostEvent(h, event).Some?
    ensures var h' := HostEvent(h, event).value; h'.actor == h.actor && h'.threshold == h.threshold
  {
  }

  lemma {:induction false} HasVersions(first: World, log: seq<Step>, w: World, name: HostName)
    requires Ran(first, log, w) && name in w.hosts
    ensures w.hosts[name].versions != []
  {
    hide Init, Recorded;
    RecordedAlways(first, log);
    HostOkIn(w, name);
  }

  lemma StartsCounted(hosts: map<HostName, Host>, m: Machine, act: Act)
    ensures HistoryAfter(hosts, m, act).started == m.hist.started + if act.Start? || act.StartDelete? then 1 else 0
  {
  }

  class ApiServer {
    var w: World
    ghost var log: seq<Step>
    ghost const first: World

    ghost predicate Valid()
      reads this
    {
      Ran(first, log, w)
    }

    constructor (start: World)
      requires Init(start)
      ensures Valid() && w == start && log == []
    {
      w := start;
      log := [];
      first := start;
    }

    // ---------- The caller's view ----------

    ghost predicate Serves(u: Uid)
      reads this
    {
      Valid() && u in w.machines
    }

    function Spec(u: Uid): MachineSpec
      requires u in w.machines
      reads this
    {
      w.machines[u].spec
    }

    function ActorOf(u: Uid): Actor
      requires u in w.machines
      reads this
    {
      w.machines[u].actor
    }

    /** How many reconciles of this machine have begun. */
    function Started(u: Uid): nat
      requires u in w.machines
      reads this
    {
      w.machines[u].hist.started
    }

    /** Whatever the others do while the caller waits. */
    method Interfere(u: Uid)
      requires Serves(u)
      modifies this
      ensures Serves(u) && old(log) <= log && Acts(log, u) == old(Acts(log, u))
      ensures Spec(u) == old(Spec(u)) && ActorOf(u) == old(ActorOf(u)) && Started(u) == old(Started(u))
      ensures SpecEdit(old(w.machines[u].stored), w.machines[u].stored)
    {
      var steps: seq<Step> :| Foreign(u, steps) && Play(w, steps).Some? by {
        assert Foreign(u, []) && Play(w, []).Some?;
      }
      OthersPlay(w, u, steps);
      QuietMachine(log, u, steps);
      RunOn(first, log, w, steps, Play(w, steps).value);
      w := Play(w, steps).value;
      log := log + steps;
    }

    /** One act of the caller. */
    method Perform(u: Uid, act: Act)
      requires Serves(u)
      requires Move(u, Spec(u), ActorOf(u), act).Some? && Possible(w.hosts, w.machines[u], act)
      modifies this
      ensures Serves(u) && old(log) <= log
      ensures Acts(log, u) == if act.Start? || act.StartDelete? then [act] else old(Acts(log, u)) + [act]
      ensures Started(u) == old(Started(u)) + if act.Start? || act.StartDelete? then 1 else 0
      ensures Spec(u) == old(Spec(u)) && Some(ActorOf(u)) == Move(u, old(Spec(u)), old(ActorOf(u)), act)
    {
      hide Init, Move, Possible, HostsAfter, StoredAfter, HistoryAfter;
      var step := MachineStep(u, act);
      assert Next(w, step).Some?;
      StartsCounted(w.hosts, w.machines[u], act);
      OwnStep(w, u, act);
      OneStep(w, step);
      RunOn(first, log, w, [step], Next(w, step).value);
      ActsSnoc(log, step, u);
      w := Next(w, step).value;
      log := log + [step];
    }

    /** What every call keeps. */
    twostate predicate Called(u: Uid)
      requires u in old(w.machines)
      reads this
    {
      Serves(u) && old(log) <= log && Spec(u) == old(Spec(u)) && Started(u) == old(Started(u))
    }

    /** The actor as it was before the call, at another control point. */
    twostate predicate Went(u: Uid, pc: Pc)
      requires u in old(w.machines) && u in w.machines
      reads this
    {
      ActorOf(u) == old(ActorOf(u)).(pc := pc)
    }

    /** The acts of the caller's reconcile so far. */
    ghost function Trail(u: Uid): seq<Act>
      reads this
    {
      Acts(log, u)
    }

    /** The call was this act. */
    twostate predicate Acted(u: Uid, act: Act)
      reads this
    {
      Trail(u) == old(Trail(u)) + [act]
    }

    /** The call fails, and with it the reconcile. */
    method Fail(u: Uid)
      requires Serves(u) && !ActorOf(u).pc.Idle?
      modifies this
      ensures Called(u) && Went(u, Idle) && Acted(u, Abort)
    {
      hide Ran, ClaimMove, AdoptMove, UpgradeMove, Intended, AfterPatch;
      Perform(u, Abort);
    }

    // ---------- The API server ----------

    /** A read of a host, from a cache of any age. */
    method Get(u: Uid) returns (err: bool, seen: Seen)
      requires Serves(u) && ReadTarget(Spec(u), ActorOf(u)).Some?
      requires var a := ActorOf(u);
               a.pc.Verify? || (a.pc.Select? && Spec(u).hostRef.Some?) || a.pc.CasGet? || a.pc.MirrorGet? || a.pc.ReleaseGet?
      modifies this
      ensures Called(u)
      ensures Acted(u, if err then Abort else ReadHost(seen))
      ensures err ==> Went(u, Idle)
      ensures !err ==> AfterRead(u, Spec(u), old(ActorOf(u)), seen).Some?
      ensures !err ==> Went(u, AfterRead(u, Spec(u), old(ActorOf(u)), seen).value)
    {
      hide Ran, SpecEdit, AdoptMove, UpgradeMove, FinalMove, Intended, AfterPatch;
      Interfere(u);
      err := *;
      seen := Missing;
      var cached: bool := *;
      var target := ReadTarget(Spec(u), ActorOf(u)).value;
      if target in w.hosts && w.hosts[target].versions != [] && (cached || !w.hosts[target].gone) {
        var at: nat :| at < |w.hosts[target].versions|;
        seen := MachineProtocol.Version(at, w.hosts[target].versions[at]);
      } else if target in w.hosts && !w.hosts[target].gone {
        err := true;
      }
      if err {
        Fail(u);
      } else {
        Perform(u, ReadHost(seen));
      }
    }

    /** A list of hosts, from the same kind of cache; every host at most once. */
    method List(u: Uid) returns (err: bool, items: seq<Listed>)
      requires Serves(u) && ActorOf(u).pc.Select? && Spec(u).hostRef.None?
      modifies this
      ensures Called(u)
      ensures Acted(u, if err then Abort else ListHosts(items))
      ensures err ==> Went(u, Idle)
      ensures !err ==> forall i, j :: 0 <= i < j < |items| ==> items[i].name != items[j].name
      ensures !err ==> var best := LeastCandidate(items, u, Spec(u).failureDomain);
                       Went(u, if best.Some? then CasGet(best.value.name, best.value.rec.publicIP) else Idle)
    {
      hide Ran, SpecEdit, AdoptMove, UpgradeMove, FinalMove, Intended, AfterPatch;
      Interfere(u);
      err := *;
      items := [];
      if err {
        Fail(u);
        return;
      }
      items :| Listing(w.hosts, items) by {
        assert Listing(w.hosts, []);
      }
      Perform(u, ListHosts(items));
    }

    /** A versioned status update of a host. */
    method UpdateStatus(u: Uid, rec: HostRec) returns (err: bool)
      requires Serves(u) && ToPut(u, ActorOf(u)) == Some(rec)
      modifies this
      ensures Called(u)
      ensures if err then Acted(u, Abort) || Acted(u, PutStatus(rec, false)) else Acted(u, PutStatus(rec, true))
      ensures Went(u, if err then Idle else AfterPut(old(ActorOf(u)).pc, rec, true))
    {
      hide Ran, SpecEdit, AdoptMove, UpgradeMove, FinalMove, Intended, AfterPatch;
      Interfere(u);
      err := *;
      var target := PutTarget(ActorOf(u));
      if err || target.None? || target.value !in w.hosts {
        err := true;
        Fail(u);
        return;
      }
      var ok := IsCurrent(w.hosts[target.value], PutAt(ActorOf(u).pc));
      Perform(u, PutStatus(rec, ok));
      err := !ok;
    }

    /** The update that adds the finalizer to the host just claimed. */
    method UpdateFinalizer(u: Uid) returns (err: bool)
      requires Serves(u) && ActorOf(u).pc.CasFinalizer?
      modifies this
      ensures Called(u)
      ensures if err then Acted(u, Abort) || Acted(u, PutFinalizer(false)) else Acted(u, PutFinalizer(true))
      ensures Went(u, if err then Idle else Record(old(ActorOf(u)).pc.host, old(ActorOf(u)).pc.ip))
    {
      hide Ran, SpecEdit, AdoptMove, UpgradeMove, FinalMove, Intended, AfterPatch;
      Interfere(u);
      err := *;
      var target := PutTarget(ActorOf(u));
      if err || target.None? || target.value !in w.hosts {
        err := true;
        Fail(u);
        return;
      }
      var ok := IsCurrent(w.hosts[target.value], PutAt(ActorOf(u).pc));
      Perform(u, PutFinalizer(ok));
      err := !ok;
    }

    /** patchHelper.Patch: commits the in-memory record against the helper's snapshot. */
    method PatchRecord(u: Uid, self: MachineRec) returns (err: bool)
      requires Serves(u) && Intended(ActorOf(u)) == Some(self)
      modifies this
      ensures Called(u)
      ensures Acted(u, if err then Abort else Patch(self))
      ensures err ==> Went(u, Idle)
      ensures !err ==> ActorOf(u) == old(ActorOf(u)).(local := self,
                                                      pc := AfterPatch(Spec(u), old(ActorOf(u)).pc, self, old(ActorOf(u)).hash))
    {
      hide Ran, SpecEdit, ClaimMove, AdoptMove, UpgradeMove, FinalMove;
      Interfere(u);
      err := *;
      if err || w.machines[u].gone {
        err := true;
        Fail(u);
        return;
      }
      Perform(u, Patch(self));
    }

    /** The own record as a new reconcile reads it: None when it is gone. */
    method GetSelf(u: Uid, hash: string) returns (self: Option<MachineRec>)
      requires Serves(u) && ActorOf(u).pc.Idle?
      modifies this
      ensures Serves(u) && old(log) <= log && Spec(u) == old(Spec(u))
      ensures self.None? ==> ActorOf(u).pc.Idle? && w.machines[u].gone
      ensures self.Some? && !self.value.deleting ==> self.value.finalizer
      ensures Trail(u) == if self.None? || (self.value.deleting && !self.value.finalizer) then old(Trail(u))
                          else if self.value.deleting then [StartDelete(self.value)]
                          else [Start(self.value, hash)]
      ensures Started(u) == old(Started(u)) + if self.None? || (self.value.deleting && !self.value.finalizer) then 0 else 1
      ensures self.Some? && self.value.deleting && !self.value.finalizer ==> self.value == w.machines[u].stored
      ensures self.Some? && !self.value.deleting ==>
                ActorOf(u) == Actor(if self.value.resolvedHost.Some? then Verify else Select,
                                    self.value, self.value, hash, false, false)
      ensures self.Some? && self.value.deleting ==>
                if self.value.finalizer then
                  ActorOf(u) == Actor(if self.value.resolvedHost.Some? then ReleaseGet else ReleaseFinalizer,
                                      self.value, self.value, "", false, false)
                else ActorOf(u).pc.Idle?
    {
      hide Ran, SpecEdit, ClaimMove, AdoptMove, UpgradeMove, FinalMove, Intended, AfterPatch;
      Interfere(u);
      if w.machines[u].gone {
        return None;
      }
      var rec := w.machines[u].stored;
      if rec.deleting {
        if rec.finalizer {
          Perform(u, StartDelete(rec));
        }
        return Some(rec);
      }
      Perform(u, Start(rec.(finalizer := true), hash));
      return Some(rec.(finalizer := true));
    }

    method RemoveSelfFinalizer(u: Uid) returns (err: bool)
      requires Serves(u) && ActorOf(u).pc.ReleaseFinalizer?
      modifies this
      ensures Called(u) && Went(u, Idle)
      ensures if err then Acted(u, Abort) || Acted(u, RemoveFinalizer(false)) else Acted(u, RemoveFinalizer(true))
    {
      hide Ran, SpecEdit, ClaimMove, AdoptMove, UpgradeMove, Intended, AfterPatch;
      Interfere(u);
      err := *;
      if w.machines[u].gone {
        err := true;
        Fail(u);
      } else {
        Perform(u, RemoveFinalizer(!err));
      }
    }

    /** Waits for the owner Machine and its bootstrap data. */
    method AdoptionInputs(u: Uid) returns (wait: bool)
      requires Serves(u) && (ActorOf(u).pc.Verify? || ActorOf(u).pc.Select?)
      modifies this
      ensures Called(u) && Went(u, if wait then Idle else old(ActorOf(u)).pc)
      ensures if wait then Acted(u, Abort) else Trail(u) == old(Trail(u))
    {
      hide Ran;
      wait := *;
      if wait {
        Fail(u);
      }
    }

    /** Waits for the talosconfig secret that this control point needs. */
    method TalosConfig(u: Uid) returns (found: bool)
      requires Serves(u) && ActorOf(u).pc.NeedConfig?
      modifies this
      ensures Called(u) && Acted(u, FetchConfig(found))
      ensures var a := old(ActorOf(u));
              Went(u, if !found then Idle
                      else if a.pc.need.ForPoll? && a.local.preRebootBoot == 0 then Fallback
                      else AfterConfig(a.pc.need))
    {
      hide Ran, SpecEdit, ClaimMove, UpgradeMove, FinalMove, Intended, AfterPatch;
      Interfere(u);
      found := *;
      Perform(u, FetchConfig(found));
    }

    method ControlPlaneReady(u: Uid) returns (ready: bool)
      requires Serves(u) && ActorOf(u).pc.Gate?
      modifies this
      ensures Called(u) && Acted(u, CheckControlPlane(ready))
      ensures ActorOf(u) == old(ActorOf(u)).(controlPlane := ready,
                                             pc := if ready then Apply(old(ActorOf(u)).pc.auth) else Idle)
    {
      hide Ran, SpecEdit, ClaimMove, UpgradeMove, FinalMove, Intended, AfterPatch;
      Interfere(u);
      ready := *;
      Perform(u, CheckControlPlane(ready));
    }

    /** Links the workload node; false when there is nothing to do or the node is pending. */
    method PatchNode(u: Uid) returns (patched: bool)
      requires Serves(u) && ActorOf(u).pc.Link?
      modifies this
      ensures Called(u) && Acted(u, LinkNode(patched))
      ensures patched ==> !ActorOf(u).local.nodeUpdated && ActorOf(u).local.providerID != ""
      ensures Went(u, if patched then LinkSave else Idle)
    {
      hide Ran, SpecEdit, ClaimMove, AdoptMove, UpgradeMove, Intended, AfterPatch;
      Interfere(u);
      patched := *;
      if ActorOf(u).local.nodeUpdated || ActorOf(u).local.providerID == "" {
        patched := false;
      }
      Perform(u, LinkNode(patched));
    }

    // ---------- The machine behind the host ----------

    method ProbeMaintenanceMode(u: Uid) returns (ok: bool)
      requires Serves(u) && (ActorOf(u).pc.Preflight? || ActorOf(u).pc.ReleaseProbe?)
      modifies this
      ensures Called(u) && Acted(u, ProbeMaintenance(ok))
      ensures var a := old(ActorOf(u));
              ActorOf(u) == a.(answered := ok,
                               pc := if a.pc.Preflight? then (if ok then GatePc(Spec(u), Insecure) else NeedConfig(ForPreflight))
                                     else if ok then ReleasePut(a.pc.at, a.pc.seen, Available)
                                     else ReleaseReset(a.pc.at, a.pc.seen))
    {
      hide Ran, SpecEdit, ClaimMove, UpgradeMove, FinalMove, Intended, AfterPatch;
      Interfere(u);
      ok := *;
      var t := Target(ActorOf(u));
      if t !in w.hosts || !w.hosts[t].config.Empty? {
        ok := false;
      }
      Perform(u, ProbeMaintenance(ok));
    }

    /** The probe with the cluster's bundle, or with the referenced one. */
    method ProbeAuthenticated(u: Uid, auth: Auth) returns (ok: bool)
      requires Serves(u) && !auth.Insecure?
      requires if auth.ClusterBundle? then ActorOf(u).pc.PreflightCluster? else ActorOf(u).pc.PreflightReference?
      modifies this
      ensures Called(u) && Acted(u, ProbeBundle(auth, ok))
      ensures Went(u, if auth.ClusterBundle? then
                        (if ok then GatePc(Spec(u), ClusterBundle)
                         else if Spec(u).talosRef.None? then Idle
                         else NeedConfig(ForReference))
                      else if ok then Idle
                      else GatePc(Spec(u), ReferencedBundle))
    {
      hide Ran, SpecEdit, ClaimMove, UpgradeMove, FinalMove, Intended, AfterPatch;
      Interfere(u);
      ok := *;
      var t := Target(ActorOf(u));
      if t !in w.hosts || !Accepts(w.hosts[t].config, Spec(u), auth) {
        ok := false;
      }
      Perform(u, ProbeBundle(auth, ok));
    }

    method ApplyMachineConfig(u: Uid) returns (err: bool, ghost tag: string)
      requires Serves(u) && ActorOf(u).pc.Apply?
      modifies this
      ensures Called(u) && Went(u, if err then Idle else Adopt)
      ensures Acted(u, ApplyConfig(!err, tag))
    {
      hide Ran, SpecEdit, ClaimMove, UpgradeMove, FinalMove, Intended, AfterPatch;
      Interfere(u);
      err := *;
      var t := Target(ActorOf(u));
      if t !in w.hosts || !Accepts(w.hosts[t].config, Spec(u), ActorOf(u).pc.auth) {
        err := true;
      }
      var installer: string := *;
      tag := installer;
      Perform(u, ApplyConfig(!err, installer));
    }

    method Version(u: Uid) returns (answer: VersionAnswer)
      requires Serves(u) && (ActorOf(u).pc.PreProbe? || ActorOf(u).pc.PollTag? || ActorOf(u).pc.Fallback?)
      modifies this
      ensures Called(u) && Acted(u, ReadVersion(answer))
      ensures AfterVersion(old(ActorOf(u)), answer).Some? && Went(u, AfterVersion(old(ActorOf(u)), answer).value)
    {
      hide Ran, SpecEdit, ClaimMove, AdoptMove, FinalMove, Intended, AfterPatch;
      Interfere(u);
      answer := NoVersion;
      var t := Target(ActorOf(u));
      if t in w.hosts && Accepts(w.hosts[t].config, Spec(u), ClusterBundle) {
        answer := *;
        if answer.Tag? && answer.tag != "" {
          answer := Tag(w.hosts[t].running);
        }
      }
      Perform(u, ReadVersion(answer));
    }

    /** The pull and the install of upgradeMachine. */
    method PullAndInstall(u: Uid) returns (err: bool, ghost answer: InstallAnswer)
      requires Serves(u) && ActorOf(u).pc.Issue?
      modifies this
      ensures Called(u) && Went(u, if err then FailMark else Capture)
      ensures err == !answer.Done? && Acted(u, Install(answer))
    {
      hide Ran, SpecEdit, ClaimMove, AdoptMove, FinalMove, Intended, AfterPatch;
      Interfere(u);
      var result := Broken;
      var t := Target(ActorOf(u));
      if t in w.hosts && Accepts(w.hosts[t].config, Spec(u), ClusterBundle) {
        result := *;
      }
      Perform(u, Install(result));
      answer := result;
      err := !result.Done?;
    }

    method CaptureBootId(u: Uid) returns (id: BootId)
      requires Serves(u) && ActorOf(u).pc.Capture?
      modifies this
      ensures Called(u) && Went(u, Restart(id)) && Acted(u, CaptureBoot(id))
    {
      hide Ran, SpecEdit, ClaimMove, AdoptMove, FinalMove, Intended, AfterPatch;
      Interfere(u);
      var t := Target(ActorOf(u));
      var read: bool := *;
      id := if read && t in w.hosts && Accepts(w.hosts[t].config, Spec(u), ClusterBundle) then w.hosts[t].boot + 1 else 0;
      Perform(u, CaptureBoot(id));
    }

    /** Best effort: an error changes nothing for the caller. */
    method RebootMachine(u: Uid) returns (ghost done: bool)
      requires Serves(u) && ActorOf(u).pc.Restart?
      modifies this
      ensures Called(u) && Went(u, Stash(old(ActorOf(u)).pc.boot))
      ensures Acted(u, Reboot(done))
    {
      hide Ran, SpecEdit, ClaimMove, AdoptMove, FinalMove, Intended, AfterPatch;
      Interfere(u);
      var ok: bool := *;
      var t := Target(ActorOf(u));
      ok := ok && t in w.hosts && Accepts(w.hosts[t].config, Spec(u), ClusterBundle);
      done := ok;
      Perform(u, Reboot(ok));
    }

    method LiveBootId(u: Uid) returns (live: BootAnswer)
      requires Serves(u) && ActorOf(u).pc.PollBoot?
      modifies this
      ensures Called(u) && Went(u, AfterBoot(old(ActorOf(u)), live)) && Acted(u, ReadBoot(live))
    {
      hide Ran, SpecEdit, ClaimMove, AdoptMove, FinalMove, Intended, AfterPatch;
      Interfere(u);
      live := *;
      var t := Target(ActorOf(u));
      if t !in w.hosts || !Accepts(w.hosts[t].config, Spec(u), ClusterBundle) {
        if live.Boot? {
          live := NoBoot;
        }
      } else if live.Boot? && live.id != 0 {
        live := Boot(w.hosts[t].boot + 1);
      }
      Perform(u, ReadBoot(live));
    }

    /** attemptReset: one of the credentials is accepted, or none. */
    method ResetMachine(u: Uid) returns (err: bool)
      requires Serves(u) && (ActorOf(u).pc.Evict? || ActorOf(u).pc.ReleaseReset?)
      modifies this
      ensures Called(u) && Acted(u, Reset(!err))
      ensures Went(u, if err then Idle
                      else if old(ActorOf(u)).pc.Evict? then FailClear
                      else ReleasePut(old(ActorOf(u)).pc.at, old(ActorOf(u)).pc.seen, Releasing))
    {
      hide Ran, SpecEdit, ClaimMove, AdoptMove, UpgradeMove, Intended, AfterPatch;
      Interfere(u);
      err := *;
      var t := Target(ActorOf(u));
      if t !in w.hosts || !(Accepts(w.hosts[t].config, Spec(u), ReferencedBundle) ||
                            Accepts(w.hosts[t].config, Spec(u), ClusterBundle) ||
                            Accepts(w.hosts[t].config, Spec(u), Insecure)) {
        err := true;
      }
      Perform(u, Reset(!err));
    }

    // ---------- The host reconciler's view ----------

    ghost predicate Tends(name: HostName)
      reads this
    {
      Valid() && name in w.hosts
    }

    function HostActorOf(name: HostName): HostActor
      requires name in w.hosts
      reads this
    {
      w.hosts[name].actor
    }

    function Threshold(name: HostName): nat
      requires name in w.hosts
      reads this
    {
      w.hosts[name].threshold
    }

    twostate predicate HostCalled(name: HostName)
      requires name in old(w.hosts)
      reads this
    {
      Tends(name) && old(log) <= log && Threshold(name) == old(Threshold(name))
    }

    twostate predicate HostWent(name: HostName, pc: HostPc)
      requires name in old(w.hosts) && name in w.hosts
      reads this
    {
      HostActorOf(name) == old(HostActorOf(name)).(pc := pc)
    }

    method InterfereHost(name: HostName)
      requires Tends(name)
      modifies this
      ensures Tends(name) && old(log) <= log && HostActs(log, name) == old(HostActs(log, name))
      ensures HostActorOf(name) == old(HostActorOf(name)) && Threshold(name) == old(Threshold(name))
    {
      var steps: seq<Step> :| Elsewhere(name, steps) && Play(w, steps).Some? by {
        assert Elsewhere(name, []) && Play(w, []).Some?;
      }
      OthersPlayHost(first, log, w, name, steps);
      QuietHost(log, name, steps);
      RunOn(first, log, w, steps, Play(w, steps).value);
      w := Play(w, steps).value;
      log := log + steps;
    }

    method PerformHost(name: HostName, act: HostAct)
      requires Tends(name)
      requires HostMove(HostActorOf(name), Threshold(name), act).Some? && HostPossible(w.hosts[name], act)
      modifies this
      ensures HostCalled(name)
      ensures HostActs(log, name) == if act.ReadSelf? then [act] else old(HostActs(log, name)) + [act]
      ensures Some(HostActorOf(name)) == HostMove(old(HostActorOf(name)), old(Threshold(name)), act)
    {
      hide Ran, Next, HostMove, HostPossible, HostActs;
      var step := HostStep(name, act);
      OwnHostStep(w, name, act);
      OneStep(w, step);
      RunOn(first, log, w, [step], Next(w, step).value);
      HostActsSnoc(log, step, name);
      w := Next(w, step).value;
      log := log + [step];
    }

    /** The acts of the host's reconcile so far. */
    ghost function HostTrail(name: HostName): seq<HostAct>
      reads this
    {
      HostActs(log, name)
    }

    twostate predicate HostActed(name: HostName, act: HostAct)
      reads this
    {
      HostTrail(name) == old(HostTrail(name)) + [act]
    }

    method FailHost(name: HostName)
      requires Tends(name) && !HostActorOf(name).pc.HostIdle?
      modifies this
      ensures HostCalled(name) && HostWent(name, HostIdle) && HostActed(name, Crash)
    {
      hide Ran;
      PerformHost(name, Crash);
    }

    /** The own record as a new reconcile reads it, from a cache of any age; a read that fails
        begins no reconcile. */
    method GetHost(name: HostName) returns (rec: Option<HostRec>)
      requires Tends(name) && HostActorOf(name).pc.HostIdle?
      modifies this
      ensures HostCalled(name)
      ensures rec.None? ==> HostActorOf(name).pc.HostIdle? && w.hosts[name].gone && HostTrail(name) == old(HostTrail(name))
      ensures rec.Some? ==> exists at :: HostTrail(name) == [ReadSelf(at, rec.value)]
      ensures rec.Some? ==> HostActorOf(name).base == rec.value && !HostActorOf(name).answered
      ensures rec.Some? ==>
                HostActorOf(name).pc ==
                if rec.value.deleting then (if rec.value.finalizer && rec.value.claimRef.None? then Removing else HostIdle)
                else if rec.value.finalizer then PhasePc(rec.value.phase)
                else Finalizing
    {
      hide Ran;
      InterfereHost(name);
      HasVersions(first, log, w, name);
      var v := w.hosts[name].versions;
      var cached: bool := *;
      if w.hosts[name].gone && !cached {
        return None;
      }
      var at: nat :| at < |v|;
      PerformHost(name, ReadSelf(at, v[at]));
      rec := Some(v[at]);
    }

    method AddHostFinalizer(name: HostName) returns (err: bool)
      requires Tends(name) && HostActorOf(name).pc.Finalizing?
      modifies this
      ensures HostCalled(name)
      ensures HostActed(name, if err then Crash else EnsureFinalizer)
      ensures err ==> HostActorOf(name).pc.HostIdle?
      ensures !err ==> var a := old(HostActorOf(name));
                       HostActorOf(name) == a.(pc := PhasePc(a.base.phase), base := a.base.(finalizer := true))
    {
      hide Ran;
      InterfereHost(name);
      err := *;
      if err || w.hosts[name].gone || w.hosts[name].versions == [] {
        err := true;
        FailHost(name);
        return;
      }
      PerformHost(name, EnsureFinalizer);
    }

    method ProbeHost(name: HostName) returns (ok: bool)
      requires Tends(name) && HostActorOf(name).pc.Probe?
      modifies this
      ensures HostCalled(name) && HostActed(name, ProbeLiveness(ok))
      ensures var a := old(HostActorOf(name));
              HostActorOf(name) == a.(pc := AfterProbe(a.base.phase, ok), answered := ok)
    {
      hide Ran;
      InterfereHost(name);
      ok := *;
      ok := ok && w.hosts[name].config.Empty?;
      PerformHost(name, ProbeLiveness(ok));
    }

    method DiscoverHost(name: HostName) returns (result: Option<DiscoveryResult>)
      requires Tends(name) && HostActorOf(name).pc.Discover?
      modifies this
      ensures HostCalled(name) && HostActed(name, RunDiscovery(result))
      ensures HostActorOf(name).base == old(HostActorOf(name)).base
      ensures HostActorOf(name).pc == HostPc.Report(if result.Some? then Found(result.value) else NotFound)
    {
      hide Ran;
      InterfereHost(name);
      result := *;
      if !w.hosts[name].config.Empty? {
        result := None;
      }
      PerformHost(name, RunDiscovery(result));
    }

    /** patchHost */
    method PatchHostSelf(name: HostName, rec: HostRec) returns (err: bool)
      requires Tends(name) && HostActorOf(name).pc.Report?
      requires rec == Reported(HostActorOf(name).base, HostActorOf(name).pc.report, Threshold(name))
      modifies this
      ensures HostCalled(name) && HostWent(name, HostIdle)
      ensures HostActed(name, if err then Crash else HostAct.PatchSelf(rec))
    {
      hide Ran, Reported;
      InterfereHost(name);
      err := *;
      if err || w.hosts[name].gone || w.hosts[name].versions == [] {
        err := true;
        FailHost(name);
        return;
      }
      PerformHost(name, PatchSelf(rec));
    }

    method RemoveHostFinalizer(name: HostName) returns (err: bool)
      requires Tends(name) && HostActorOf(name).pc.Removing?
      modifies this
      ensures HostCalled(name) && HostWent(name, HostIdle)
      ensures HostActed(name, Crash) || HostActed(name, DropFinalizer(!err))
    {
      hide Ran;
      InterfereHost(name);
      err := *;
      if err {
        FailHost(name);
        return;
      }
      var ok := IsCurrent(w.hosts[name], HostActorOf(name).at);
      PerformHost(name, DropFinalizer(ok));
      err := !ok;
    }
  }
}
