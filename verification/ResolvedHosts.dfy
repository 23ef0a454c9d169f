/** What a machine remembers of its claims, in every run: the resolvedHost it has stored
    against the one in memory, and exactly which steps leave a claim that nobody remembers. */
module ResolvedHosts {
  import opened Common
  import opened Records
  import opened HostProtocol
  import opened MachineProtocol
  import opened World
  import opened HostHistory
  import opened Ownership
  import opened Attempts
  import opened Reconciles
  import opened ClaimProperties

  // ---------- The stored and the in-memory host ----------

  /** The control points of a reconcile that has no host yet. */
  predicate Seeks(pc: Pc) {
    pc.Select? || pc.CasGet? || pc.CasPut? || pc.CasFinalizer? || pc.Record?
  }

  /** The stored host s against the one of the snapshot b and the in-memory one l. A claim
      recorded again on the host of the snapshot is the only value that is not stored. */
  predicate HostBook(pc: Pc, s: Option<HostName>, b: Option<HostName>, l: Option<HostName>) {
    if pc.Idle? then true
    else if Releases(pc) then l == s
    else if pc.Verify? || pc.ClearClaim? || pc.HealIP? then l.Some? && s == l && b == l
    else if Seeks(pc) then l.None? && s.None?
    else l.Some? && (s == l || (s.None? && b == l))
  }

  predicate HostBooked(m: Machine) {
    HostBook(m.actor.pc, m.stored.resolvedHost, m.actor.base.resolvedHost, m.actor.local.resolvedHost)
  }

  lemma BookStart(hosts: map<HostName, Host>, u: Uid, m: Machine, m': Machine, act: Act)
    requires Acted(hosts, u, m, m', act) && (act.Start? || act.StartDelete?)
    ensures HostBooked(m')
  {
  }

  /** Where a patch leads, by what its reconcile knows. */
  lemma PatchLeads(spec: MachineSpec, pc: Pc, m: MachineRec, hash: string)
    ensures var pc' := AfterPatch(spec, pc, m, hash);
            && !Releases(pc') && !pc'.Verify? && !pc'.ClearClaim? && !pc'.HealIP? && !pc'.Record?
            && (Seeks(pc') <==> pc.ClearClaim?)
  {
  }

  lemma BookPatch(hosts: map<HostName, Host>, u: Uid, m: Machine, m': Machine, act: Act)
    requires Acted(hosts, u, m, m', act) && act.Patch? && HostBooked(m)
    ensures HostBooked(m')
  {
    hide AfterPatch, Possible, HistoryAfter;
    PatchLeads(m.spec, m.actor.pc, act.self, m.actor.hash);
    PatchedHosts(m, act);
  }

  lemma PatchedHosts(m: Machine, act: Act)
    requires act.Patch? && Intended(m.actor) == Some(act.self) && HostBooked(m)
    ensures act.self.resolvedHost ==
            (if m.actor.pc.ClearClaim? then None
             else if m.actor.pc.Record? then Some(m.actor.pc.host)
             else m.actor.local.resolvedHost)
    ensures StoredAfter(m, act).resolvedHost ==
            (if m.actor.pc.ClearClaim? then None
             else if m.actor.pc.Record? then
               (if m.actor.base.resolvedHost == Some(m.actor.pc.host) then None else Some(m.actor.pc.host))
             else m.stored.resolvedHost)
  {
    hide PatchMachine;
    IntendedHosts(m.actor);
    MergedHost(m.stored, PatchBase(m.actor), act.self);
  }

  lemma IntendedHosts(a: Actor)
    requires Intended(a).Some?
    ensures Intended(a).value.resolvedHost ==
            (if a.pc.ClearClaim? then None else if a.pc.Record? then Some(a.pc.host) else a.local.resolvedHost)
    ensures !Releases(a.pc) && !a.pc.Verify? && !a.pc.Idle? && (Seeks(a.pc) ==> a.pc.Record?)
  {
  }

  lemma MergedHost(s: MachineRec, b: MachineRec, l: MachineRec)
    ensures PatchMachine(s, b, l).resolvedHost == Merge(s.resolvedHost, b.resolvedHost, l.resolvedHost)
  {
  }

  /** An answer ends the reconcile or leaves it where it is: releasing, looking for a host,
      or past that. */
  predicate KeepsPlace(pc: Pc, pc': Pc) {
    || pc'.Idle?
    || (Releases(pc) && Releases(pc'))
    || (Seeks(pc) && Seeks(pc'))
    || (pc.Verify? && !Seeks(pc') && !Releases(pc'))
    || (!Releases(pc) && !Seeks(pc) && !Releases(pc') && !Seeks(pc') && !pc'.Verify? && !pc'.ClearClaim? && !pc'.HealIP?)
  }

  lemma ClaimKeepsPlace(u: Uid, spec: MachineSpec, a: Actor, act: Act)
    requires ClaimMove(u, spec, a, act).Some?
    ensures KeepsPlace(a.pc, ClaimMove(u, spec, a, act).value.pc)
  {
    hide LeastCandidate;
  }

  lemma AdoptKeepsPlace(spec: MachineSpec, a: Actor, act: Act)
    requires AdoptMove(spec, a, act).Some?
    ensures KeepsPlace(a.pc, AdoptMove(spec, a, act).value.pc)
  {
  }

  lemma UpgradeKeepsPlace(a: Actor, act: Act)
    requires UpgradeMove(a, act).Some?
    ensures KeepsPlace(a.pc, UpgradeMove(a, act).value.pc)
  {
  }

  lemma FinalKeepsPlace(a: Actor, act: Act)
    requires FinalMove(a, act).Some?
    ensures KeepsPlace(a.pc, FinalMove(a, act).value.pc)
  {
  }

  lemma AnswerLeads(u: Uid, spec: MachineSpec, a: Actor, act: Act)
    requires Move(u, spec, a, act).Some? && !act.Start? && !act.StartDelete? && !act.Patch?
    ensures KeepsPlace(a.pc, Move(u, spec, a, act).value.pc)
  {
    hide KeepsPlace, ClaimMove, AdoptMove, UpgradeMove, FinalMove;
    if ClaimAct(act) {
      ClaimKeepsPlace(u, spec, a, act);
    } else if AdoptAct(act) {
      AdoptKeepsPlace(spec, a, act);
    } else if UpgradeAct(act) {
      UpgradeKeepsPlace(a, act);
    } else {
      FinalKeepsPlace(a, act);
    }
  }

  lemma BookAnswer(hosts: map<HostName, Host>, u: Uid, m: Machine, m': Machine, act: Act)
    requires Acted(hosts, u, m, m', act) && HostBooked(m)
    requires !act.Start? && !act.StartDelete? && !act.Patch?
    ensures HostBooked(m')
  {
    hide Move, Possible, HistoryAfter;
    LocalMove(u, m.spec, m.actor, act);
    AnswerLeads(u, m.spec, m.actor, act);
    StoredByAnswer(m, act);
  }

  lemma OwnHostBook(hosts: map<HostName, Host>, u: Uid, m: Machine, m': Machine, act: Act)
    requires Acted(hosts, u, m, m', act) && HostBooked(m)
    ensures HostBooked(m')
  {
    hide Acted, HostBooked;
    if act.Start? || act.StartDelete? {
      BookStart(hosts, u, m, m', act);
    } else if act.Patch? {
      BookPatch(hosts, u, m, m', act);
    } else {
      BookAnswer(hosts, u, m, m', act);
    }
  }

  // ---------- Machines that are gone ----------

  /** The last version of this host's record carries the claim of machine u. */
  predicate ClaimedBy(hosts: map<HostName, Host>, name: HostName, u: Uid) {
    name in hosts && hosts[name].versions != [] && Last(hosts[name].versions).claimRef == Some(u)
  }

  predicate LetGo(hosts: map<HostName, Host>, u: Uid, host: Option<HostName>) {
    host.Some? ==> !ClaimedBy(hosts, host.value, u)
  }

  /** A machine without the finalizer has not started yet or is gone, and one that gives up
      its finalizer, or has, claims nothing any more. */
  predicate GoneOk(hosts: map<HostName, Host>, u: Uid, m: Machine) {
    && (m.gone ==> m.actor.pc.Idle?)
    && (!m.stored.finalizer && !m.gone ==> m.actor.pc.Idle? && m.stored.resolvedHost.None?)
    && (m.gone || m.actor.pc.ReleaseFinalizer? ==> LetGo(hosts, u, m.stored.resolvedHost))
  }

  /** What leads to the finalizer update. */
  lemma LeadsToFinalizer(u: Uid, spec: MachineSpec, a: Actor, act: Act)
    requires Move(u, spec, a, act).Some? && Move(u, spec, a, act).value.pc.ReleaseFinalizer?
    ensures || (act.StartDelete? && act.self.resolvedHost.None?)
            || (a.pc.ReleaseGet? && act == ReadHost(Missing))
            || (a.pc.ReleasePut? && act.PutStatus? && act.ok && ToPut(u, a) == Some(act.rec))
  {
    hide LeastCandidate, AfterPatch;
    if act.Patch? {
      PatchLeads(spec, a.pc, act.self, a.hash);
    }
  }

  lemma NothingHeld(hosts: map<HostName, Host>, u: Uid)
    ensures LetGo(hosts, u, None)
  {
  }

  lemma LetsGo(hosts: map<HostName, Host>, u: Uid, m: Machine, m': Machine, act: Act)
    requires HostsOk(hosts) && Acted(hosts, u, m, m', act) && HostBooked(m) && m'.actor.pc.ReleaseFinalizer?
    ensures LetGo(HostsAfter(hosts, u, m, act), u, m'.stored.resolvedHost)
  {
    hide HostsOk, HostsAfter, HostBooked, LetGo, ToPut, Move, HistoryAfter;
    LeadsToFinal(hosts, u, m, m', act);
    if act.StartDelete? {
      NothingHeld(HostsAfter(hosts, u, m, act), u);
    } else if act.ReadHost? {
      GoneIsLetGo(hosts, u, m, m', act);
    } else {
      ReleasedIsLetGo(hosts, u, m, m', act);
    }
  }

  lemma LeadsToFinal(hosts: map<HostName, Host>, u: Uid, m: Machine, m': Machine, act: Act)
    requires Acted(hosts, u, m, m', act) && m'.actor.pc.ReleaseFinalizer?
    ensures || (act.StartDelete? && m'.stored.resolvedHost.None?)
            || (m.actor.pc.ReleaseGet? && act == ReadHost(Missing))
            || (m.actor.pc.ReleasePut? && act.PutStatus? && act.ok && ToPut(u, m.actor) == Some(act.rec))
  {
    hide Move, HostsAfter, HistoryAfter, ToPut;
    LeadsToFinalizer(u, m.spec, m.actor, act);
  }

  lemma GoneIsLetGo(hosts: map<HostName, Host>, u: Uid, m: Machine, m': Machine, act: Act)
    requires HostsOk(hosts) && Acted(hosts, u, m, m', act) && HostBooked(m)
    requires m.actor.pc.ReleaseGet? && act == ReadHost(Missing)
    ensures LetGo(HostsAfter(hosts, u, m, act), u, m'.stored.resolvedHost)
  {
    hide Move, HistoryAfter;
    if m.actor.local.resolvedHost.Some? && m.actor.local.resolvedHost.value in hosts {
      assert HostOk(hosts[m.actor.local.resolvedHost.value]);
    }
  }

  lemma ReleasedIsLetGo(hosts: map<HostName, Host>, u: Uid, m: Machine, m': Machine, act: Act)
    requires Acted(hosts, u, m, m', act) && HostBooked(m)
    requires m.actor.pc.ReleasePut? && act.PutStatus? && act.ok && ToPut(u, m.actor) == Some(act.rec)
    ensures LetGo(HostsAfter(hosts, u, m, act), u, m'.stored.resolvedHost)
  {
    hide Move, HistoryAfter;
  }

  /** A machine that is gone acts no more. */
  lemma GoneRests(hosts: map<HostName, Host>, u: Uid, m: Machine, m': Machine, act: Act)
    requires Acted(hosts, u, m, m', act) && (m.gone || !m.stored.finalizer ==> m.actor.pc.Idle?)
    ensures !m.gone && (!m.stored.finalizer ==> act.Start?)
  {
  }

  lemma FinalizerStays(hosts: map<HostName, Host>, u: Uid, m: Machine, m': Machine, act: Act)
    requires Acted(hosts, u, m, m', act) && (!m.stored.finalizer ==> act.Start?) && act != RemoveFinalizer(true)
    ensures m'.stored.finalizer
  {
  }

  lemma Vanishing(hosts: map<HostName, Host>, u: Uid, m: Machine, m': Machine, act: Act)
    requires Acted(hosts, u, m, m', act) && act == RemoveFinalizer(true)
    ensures m.actor.pc.ReleaseFinalizer? && m'.actor.pc.Idle? && HostsAfter(hosts, u, m, act) == hosts
    ensures m'.stored.resolvedHost == m.stored.resolvedHost
  {
  }

  lemma OwnGone(hosts: map<HostName, Host>, u: Uid, m: Machine, m': Machine, act: Act)
    requires HostsOk(hosts) && Acted(hosts, u, m, m', act) && HostBooked(m) && GoneOk(hosts, u, m)
    requires m'.gone == (m.gone || act == RemoveFinalizer(true))
    ensures GoneOk(HostsAfter(hosts, u, m, act), u, m')
  {
    hide Acted, HostsOk, LetGo, HostBooked, HostsAfter;
    GoneRests(hosts, u, m, m', act);
    if act == RemoveFinalizer(true) {
      Vanishing(hosts, u, m, m', act);
    } else {
      FinalizerStays(hosts, u, m, m', act);
      if m'.actor.pc.ReleaseFinalizer? {
        LetsGo(hosts, u, m, m', act);
      }
    }
  }

  // ---------- Every run ----------

  ghost predicate Remembered(w: World) {
    forall u :: u in w.machines ==> HostBooked(w.machines[u]) && GoneOk(w.hosts, u, w.machines[u])
  }

  lemma OwnVanishes(w: World, u: Uid, act: Act)
    requires Next(w, MachineStep(u, act)).Some?
    ensures u in w.machines && u in Next(w, MachineStep(u, act)).value.machines
    ensures Next(w, MachineStep(u, act)).value.machines[u].gone == (w.machines[u].gone || act == RemoveFinalizer(true))
  {
    hide Move, Possible, HostsAfter, StoredAfter, HistoryAfter;
  }

  /** From outside a machine disappears only without its finalizer. */
  lemma OthersVanish(w: World, step: Step, u: Uid)
    requires Next(w, step).Some? && u in w.machines && !(step.MachineStep? && step.u == u)
    ensures u in Next(w, step).value.machines
    ensures var gone' := Next(w, step).value.machines[u].gone;
            (w.machines[u].gone ==> gone') && (gone' ==> w.machines[u].gone || !w.machines[u].stored.finalizer)
  {
    hide HostNext, HostEvent, Move, Possible, HostsAfter, StoredAfter, HistoryAfter;
  }

  /** Nobody claims a host in another machine's name. */
  lemma StaysLetGo(first: World, log: seq<Step>, w: World, step: Step, w': World, u: Uid, host: Option<HostName>)
    requires Ran(first, log, w) && Next(w, step) == Some(w') && LetGo(w.hosts, u, host)
    requires !(step.MachineStep? && step.u == u)
    ensures LetGo(w'.hosts, u, host)
  {
    hide Init, Next, Recorded;
    RecordedAlways(first, log);
    SameNames(w, step);
    if host.Some? && host.value in w.hosts {
      ClaimWriters(first, log, w, step, w', host.value);
      HostOkIn(w, host.value);
      RecordedStep(w, step);
      HostOkIn(w', host.value);
    }
  }

  lemma RememberedStep(first: World, log: seq<Step>, w: World, step: Step, w': World, u: Uid)
    requires Ran(first, log, w) && Remembered(w) && Next(w, step) == Some(w') && u in w.machines
    ensures u in w'.machines && HostBooked(w'.machines[u]) && GoneOk(w'.hosts, u, w'.machines[u])
  {
    hide Init, Next, HostsOk, Move, Possible, HostsAfter, StoredAfter, HistoryAfter, LetGo, HostBook;
    RecordedAlways(first, log);
    if step.MachineStep? && step.u == u {
      OwnStep(w, u, step.act);
      OwnVanishes(w, u, step.act);
      OwnHostBook(w.hosts, u, w.machines[u], w'.machines[u], step.act);
      OwnGone(w.hosts, u, w.machines[u], w'.machines[u], step.act);
    } else {
      OthersStep(w, step, u);
      OthersVanish(w, step, u);
      if LetGo(w.hosts, u, w.machines[u].stored.resolvedHost) {
        StaysLetGo(first, log, w, step, w', u, w.machines[u].stored.resolvedHost);
      }
      NothingHeld(w'.hosts, u);
    }
  }

  lemma InitRemembered(w: World)
    requires Init(w)
    ensures Remembered(w)
  {
  }

  lemma {:induction false} RememberedAlways(first: World, log: seq<Step>, w: World)
    requires Ran(first, log, w)
    ensures Remembered(w)
  {
    hide Init, Next, HostBooked, GoneOk;
    if log == [] {
      InitRemembered(w);
    } else {
      var earlier, step := log[..|log| - 1], Last(log);
      var before := Play(first, earlier).value;
      RememberedAlways(first, earlier, before);
      StepKeepsMachines(before, step);
      forall u | u in w.machines
        ensures HostBooked(w.machines[u]) && GoneOk(w.hosts, u, w.machines[u])
      {
        RememberedStep(first, earlier, before, step, w, u);
      }
    }
  }

  /** The host that a machine has stored, or works on, is the one whose claim it recorded last. */
  lemma {:induction false} RecordedHost(first: World, log: seq<Step>, w: World, u: Uid)
    requires Ran(first, log, w) && u in w.machines
    ensures var m, last := w.machines[u], Some(LastRecorded(first, log, u));
            m.stored.resolvedHost in {None, last} && (!m.actor.pc.Idle? ==> m.actor.local.resolvedHost in {None, last})
  {
    hide Init, Next, Move, HistoryAfter, HostsAfter, Possible, StoredAfter, GoneOk;
    if log == [] {
      NothingRecorded(w, u);
    } else {
      var earlier, step := log[..|log| - 1], Last(log);
      var before := Play(first, earlier).value;
      StepKeepsMachines(before, step);
      RecordedHost(first, earlier, before, u);
      RememberedAlways(first, earlier, before);
      if step.MachineStep? && step.u == u {
        OwnStep(before, u, step.act);
        HostsInHand(before.hosts, u, before.machines[u], w.machines[u], step.act);
      } else {
        OthersStep(before, step, u);
      }
    }
  }

  lemma NothingRecorded(w: World, u: Uid)
    requires Init(w) && u in w.machines
    ensures w.machines[u].actor.pc.Idle? && w.machines[u].stored.resolvedHost.None?
  {
  }

  lemma HostsInHand(hosts: map<HostName, Host>, u: Uid, m: Machine, m': Machine, act: Act)
    requires Acted(hosts, u, m, m', act) && HostBooked(m)
    ensures if act.Patch? && m.actor.pc.Record? then
              m'.stored.resolvedHost in {None, Some(m.actor.pc.host)} && m'.actor.local.resolvedHost == Some(m.actor.pc.host)
            else
              && m'.stored.resolvedHost in {None, m.stored.resolvedHost}
              && m'.actor.local.resolvedHost in
                 {None, if m.actor.pc.Idle? then m.stored.resolvedHost else m.actor.local.resolvedHost}
  {
    hide ClaimMove, AdoptMove, UpgradeMove, FinalMove, HistoryAfter, HostsAfter, AfterPatch, HostBooked, Intended, StoredAfter;
    if act.Patch? {
      PatchIntended(u, m.spec, m.actor, act);
      PatchedHosts(m, act);
    } else if act.Start? || act.StartDelete? {
      StartedHosts(m, act);
    } else {
      StoredByAnswer(m, act);
      LocalMove(u, m.spec, m.actor, act);
    }
  }

  lemma StartedHosts(m: Machine, act: Act)
    requires act.Start? || act.StartDelete?
    ensures StoredAfter(m, act) == if act.Start? then act.self else m.stored
  {
  }

  // ---------- Claims that nobody remembers ----------

  /** The stored record names the host, or the reconcile is about to record it. */
  predicate Remembers(m: Machine, name: HostName) {
    !m.gone && (m.stored.resolvedHost == Some(name) || (m.actor.pc.Record? && m.actor.pc.host == name))
  }

  /** The host is claimed by a machine that will not give it back. */
  predicate Orphaned(w: World, name: HostName) {
    && name in w.hosts && StoredClaim(w, name).Some?
    && (StoredClaim(w, name).value in w.machines ==> !Remembers(w.machines[StoredClaim(w, name).value], name))
  }

  /** The three ways to lose track of a claim: a crash between the claim and its record; a
      record that the patch leaves out because the snapshot shows the same host already; and
      giving up a host that a stale read shows unclaimed. */
  predicate Orphans(w: World, step: Step, name: HostName) {
    && step.MachineStep? && step.u in w.machines && name in w.hosts && StoredClaim(w, name) == Some(step.u)
    && var a := w.machines[step.u].actor;
    || (step.act.Abort? && a.pc.Record? && a.pc.host == name)
    || (step.act.Patch? && a.pc.Record? && a.pc.host == name && a.base.resolvedHost == Some(name))
    || (step.act.Patch? && a.pc.ClearClaim? && a.local.resolvedHost == Some(name))
  }

  /** Only a patch changes the stored host, and only recording or failing leaves Record. */
  lemma AnswerKeepsHost(hosts: map<HostName, Host>, u: Uid, m: Machine, m': Machine, act: Act)
    requires Acted(hosts, u, m, m', act) && !act.Patch?
    ensures m'.stored.resolvedHost == m.stored.resolvedHost
    ensures m.actor.pc.Record? ==> act.Abort? && m'.actor.pc.Idle?
    ensures m'.actor.pc.Record? ==> (m.actor.pc.CasPut? && act.PutStatus? && act.ok && m.actor.pc.host == m'.actor.pc.host)
                                    || act.PutFinalizer?
  {
    hide Move, HistoryAfter, HostsAfter;
    RecordMoves(u, m.spec, m.actor, act);
    if !act.Start? {
      StoredByAnswer(m, act);
    }
  }

  lemma RecordMoves(u: Uid, spec: MachineSpec, a: Actor, act: Act)
    requires Move(u, spec, a, act).Some? && !act.Patch?
    ensures var pc' := Move(u, spec, a, act).value.pc;
            && (a.pc.Record? ==> act.Abort? && pc'.Idle?)
            && (pc'.Record? ==> (a.pc.CasPut? && act.PutStatus? && act.ok && a.pc.host == pc'.host) || act.PutFinalizer?)
  {
    hide LeastCandidate, Intended, AfterPatch;
  }

  lemma OwnRemembers(hosts: map<HostName, Host>, u: Uid, m: Machine, m': Machine, act: Act, name: HostName)
    requires Acted(hosts, u, m, m', act) && HostBooked(m) && !m'.gone && !m.gone && !act.PutFinalizer?
    ensures Remembers(m', name) <==>
            || (act.PutStatus? && act.ok && m.actor.pc.CasPut? && m.actor.pc.host == name && m'.actor.pc.Record?)
            || (Remembers(m, name) &&
                !(act.Abort? && m.actor.pc.Record?) &&
                !(act.Patch? && m.actor.pc.Record? && m.actor.base.resolvedHost == Some(name)) &&
                !(act.Patch? && m.actor.pc.ClearClaim?))
  {
    hide ClaimMove, AdoptMove, UpgradeMove, FinalMove, Possible, HistoryAfter, HostsAfter, AfterPatch;
    if act.Patch? {
      PatchIntended(u, m.spec, m.actor, act);
      PatchLeads(m.spec, m.actor.pc, act.self, m.actor.hash);
      PatchedHosts(m, act);
    } else {
      AnswerKeepsHost(hosts, u, m, m', act);
    }
  }

  /** Whatever others do, a machine remembers what it did, unless it disappears. */
  lemma OthersRemember(w: World, step: Step, u: Uid, name: HostName)
    requires Next(w, step).Some? && u in w.machines && !(step.MachineStep? && step.u == u)
    requires GoneOk(w.hosts, u, w.machines[u])
    ensures u in Next(w, step).value.machines
    ensures var m, m' := w.machines[u], Next(w, step).value.machines[u];
            Remembers(m', name) <==> Remembers(m, name)
  {
    hide Next, LetGo;
    OthersStep(w, step, u);
    OthersVanish(w, step, u);
  }

  lemma PutsClaim(w: World, u: Uid, act: Act)
    requires Recorded(w) && Next(w, MachineStep(u, act)).Some?
    ensures !act.PutFinalizer?
    ensures act.PutStatus? && act.ok && w.machines[u].actor.pc.CasPut? ==>
              Next(w, MachineStep(u, act)).value.machines[u].actor.pc.Record?
  {
    hide Next, Move, Possible, HostsAfter, StoredAfter, HistoryAfter, MachineOk, HostsOk;
    OwnStep(w, u, act);
    var m := w.machines[u];
    NoFinalizerPut(w.hosts, u, m.spec, m.stored, m.actor, act);
    if act.PutStatus? && act.ok && m.actor.pc.CasPut? {
      PutLeads(w.hosts, u, m, act);
    }
  }

  lemma PutLeads(hosts: map<HostName, Host>, u: Uid, m: Machine, act: Act)
    requires HostsOk(hosts) && MachineOk(hosts, u, m.stored, m.actor) && Possible(hosts, m, act)
    requires Move(u, m.spec, m.actor, act).Some? && act.PutStatus? && act.ok && m.actor.pc.CasPut?
    ensures Move(u, m.spec, m.actor, act).value.pc.Record?
  {
    hide HostsOk, MachineOk, AdoptMove, UpgradeMove, FinalMove, Intended, AfterPatch;
    PutIsSound(hosts, u, m.stored, m.actor, act.rec);
  }

  /** A machine gives up its finalizer only when nobody claims its host in its name. */
  lemma VanishesUnclaimed(w: World, u: Uid, act: Act, name: HostName)
    requires Next(w, MachineStep(u, act)).Some? && u in w.machines && GoneOk(w.hosts, u, w.machines[u])
    ensures !w.machines[u].gone
    ensures act == RemoveFinalizer(true) && ClaimedBy(w.hosts, name, u) ==> !Remembers(w.machines[u], name)
  {
    hide Next, Possible, HostsAfter, StoredAfter, HistoryAfter, AdoptMove, UpgradeMove, Intended, AfterPatch, ClaimMove;
    OwnStep(w, u, act);
    GoneActs(w.hosts, w.machines[u], u, act);
  }

  lemma GoneActs(hosts: map<HostName, Host>, m: Machine, u: Uid, act: Act)
    requires Possible(hosts, m, act) && Move(u, m.spec, m.actor, act).Some? && (m.gone ==> m.actor.pc.Idle?)
    ensures !m.gone
  {
  }

  lemma OwnRemembered(w: World, u: Uid, act: Act, w': World, name: HostName)
    requires Recorded(w) && Remembered(w) && Next(w, MachineStep(u, act)) == Some(w') && u in w.machines && u in w'.machines
    requires name in w.hosts && name in w'.hosts && StoredClaim(w', name) == Some(u)
    requires if StoredClaim(w, name) == Some(u) then Remembers(w.machines[u], name)
             else ClaimWrite(w, MachineStep(u, act), name)
    ensures !Remembers(w'.machines[u], name) <==> Orphans(w, MachineStep(u, act), name)
  {
    hide Next, Recorded, GoneOk, Move, Possible, HostsAfter, StoredAfter, HistoryAfter;
    OwnStep(w, u, act);
    OwnVanishes(w, u, act);
    PutsClaim(w, u, act);
    VanishesUnclaimed(w, u, act, name);
    if act != RemoveFinalizer(true) {
      OwnRemembers(w.hosts, u, w.machines[u], w'.machines[u], act, name);
    }
  }

  /** A claim that machine u has, before and after a step. */
  lemma {:induction false} StillRemembered(first: World, log: seq<Step>, w: World, step: Step, w': World, name: HostName, u: Uid)
    requires Ran(first, log, w) && Next(w, step) == Some(w') && name in w.hosts && name in w'.hosts
    requires StoredClaim(w', name) == Some(u) && u in w.machines && u in w'.machines
    requires StoredClaim(w, name) == Some(u) ==> Remembers(w.machines[u], name)
    ensures !Remembers(w'.machines[u], name) <==> Orphans(w, step, name)
  {
    hide Init, Next, Recorded, HostBooked, GoneOk, Remembers;
    RecordedAlways(first, log);
    RememberedAlways(first, log, w);
    ClaimWriters(first, log, w, step, w', name);
    if step.MachineStep? && step.u == u {
      OwnRemembered(w, u, step.act, w', name);
    } else {
      OthersRemember(w, step, u, name);
    }
  }

  /** In every run, a step leaves a claim that nobody remembers if and only if it is one of
      those three. */
  lemma {:induction false} OrphaningSteps(first: World, log: seq<Step>, w: World, step: Step, w': World, name: HostName)
    requires Ran(first, log, w) && Next(w, step) == Some(w') && name in w.hosts && !Orphaned(w, name)
    ensures Orphaned(w', name) <==> Orphans(w, step, name)
  {
    hide Init, Next, Remembers;
    ClaimWriters(first, log, w, step, w', name);
    StepKeepsMachines(w, step);
    if StoredClaim(w', name).Some? && StoredClaim(w', name).value in w.machines {
      StillRemembered(first, log, w, step, w', name, StoredClaim(w', name).value);
    }
    if Orphans(w, step, name) {
      OwnStep(w, step.u, step.act);
    }
  }

  predicate NoneOrphaned(w: World) {
    forall name :: name in w.hosts ==> !Orphaned(w, name)
  }

  /** No state of the run has an orphaned claim. */
  ghost predicate AlwaysRemembered(first: World, log: seq<Step>) {
    && (log != [] ==> AlwaysRemembered(first, log[..|log| - 1]))
    && (Play(first, log).Some? ==> NoneOrphaned(Play(first, log).value))
  }

  predicate OrphansNone(w: World, step: Step) {
    forall name :: name in w.hosts ==> !Orphans(w, step, name)
  }

  /** No step of the run is one of the three. */
  ghost predicate NeverOrphans(first: World, log: seq<Step>) {
    log == [] ||
    (&& NeverOrphans(first, log[..|log| - 1])
     && (Play(first, log[..|log| - 1]).Some? ==> OrphansNone(Play(first, log[..|log| - 1]).value, Last(log))))
  }

  lemma NewRemembered(w: World)
    requires Init(w)
    ensures NoneOrphaned(w)
  {
  }

  /** No claim ever outlives its machine or goes unrecorded in exactly the runs without such a
      step. */
  lemma {:induction false} OrphanFreeRuns(first: World, log: seq<Step>, w: World)
    requires Ran(first, log, w)
    ensures AlwaysRemembered(first, log) <==> NeverOrphans(first, log)
  {
    hide Init, Next, Orphaned, Orphans;
    if log == [] {
      NewRemembered(first);
    } else {
      var earlier, step := log[..|log| - 1], Last(log);
      var before := Play(first, earlier).value;
      OrphanFreeRuns(first, earlier, before);
      OrphanFreeStep(first, earlier, before, step, w);
      HasRemembered(first, earlier, before);
    }
  }

  lemma HasRemembered(first: World, log: seq<Step>, w: World)
    requires Play(first, log) == Some(w)
    ensures AlwaysRemembered(first, log) ==> NoneOrphaned(w)
  {
    hide Next, NoneOrphaned;
  }

  lemma {:induction false} OrphanFreeStep(first: World, log: seq<Step>, w: World, step: Step, w': World)
    requires Ran(first, log, w) && Next(w, step) == Some(w')
    ensures NoneOrphaned(w) ==> (NoneOrphaned(w') <==> OrphansNone(w, step))
  {
    hide Init, Next, Orphaned, Orphans, Recorded;
    RecordedAlways(first, log);
    SameNames(w, step);
    if NoneOrphaned(w) {
      forall name | name in w.hosts
        ensures Orphaned(w', name) <==> Orphans(w, step, name)
      {
        OrphaningSteps(first, log, w, step, w', name);
      }
    }
  }

  /** In such a run a claimed host's machine still exists and has stored the host, or is about
      to: a machine that is gone holds no claim. */
  lemma {:induction false} NoClaimOutlives(first: World, log: seq<Step>, w: World, name: HostName)
    requires Ran(first, log, w) && NeverOrphans(first, log) && name in w.hosts && StoredClaim(w, name).Some?
    ensures StoredClaim(w, name).value in w.machines
    ensures var m := w.machines[StoredClaim(w, name).value];
            !m.gone && (m.stored.resolvedHost == Some(name) || (m.actor.pc.Record? && m.actor.pc.host == name))
  {
    hide Init, Next, AlwaysRemembered;
    OrphanFreeRuns(first, log, w);
    HasRemembered(first, log, w);
    assert !Orphaned(w, name);
  }
}
