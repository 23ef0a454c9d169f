/** When an adopted machine is applied to again, and when it is left alone, in every run. */
module AdoptionProperties {
  import opened Common
  import opened Records
  import opened MachineProtocol
  import opened World
  import opened HostHistory
  import opened UpgradeRecord
  import opened Reconciles
  import opened UpgradeProperties

  /** Adopted, with this very config. */
  predicate Carries(m: MachineRec, hash: string) {
    m.ready && m.providerID != "" && m.configSHA == hash
  }

  /** What the in-memory record says about the config at each stage of a reconcile. */
  predicate Checked(a: Actor) {
    match StageOf(a.pc)
    case Resting | Leaving => true
    case Claiming => a.local.upgrade == a.base.upgrade
    case Adopting => a.local.upgrade == a.base.upgrade && a.local.upgrade != Failed && !Carries(a.local, a.hash)
    case Linking => a.base.upgrade == Failed || Carries(a.local, a.hash)
    case _ => (a.base.upgrade == Failed || Carries(a.local, a.hash)) && a.local.desired != "" && a.local.ready
  }

  lemma ClaimChecks(u: Uid, spec: MachineSpec, a: Actor, act: Act)
    requires Checked(a) && ClaimMove(u, spec, a, act).Some?
    ensures Checked(ClaimMove(u, spec, a, act).value)
  {
    hide LeastCandidate, ClaimableBy;
  }

  function Patched(spec: MachineSpec, a: Actor): Actor
    requires Intended(a).Some?
  {
    a.(local := Intended(a).value, pc := AfterPatch(spec, a.pc, Intended(a).value, a.hash))
  }

  lemma ClaimPatchChecks(spec: MachineSpec, a: Actor)
    requires Checked(a) && (a.pc.ClearClaim? || a.pc.HealIP? || a.pc.Record?)
    ensures Checked(Patched(spec, a))
  {
  }

  lemma AdoptPatchChecks(spec: MachineSpec, a: Actor)
    requires Checked(a) && a.pc.Adopt?
    ensures Checked(Patched(spec, a))
  {
  }

  lemma UpgradePatchChecks(spec: MachineSpec, a: Actor)
    requires Checked(a) && Intended(a).Some? && !(a.pc.ClearClaim? || a.pc.HealIP? || a.pc.Record? || a.pc.Adopt?)
    ensures Checked(Patched(spec, a))
  {
    hide DecidePc, EnsurePc;
  }

  lemma PatchChecks(spec: MachineSpec, a: Actor)
    requires Checked(a) && Intended(a).Some?
    ensures Checked(Patched(spec, a))
  {
    hide Checked, Patched;
    if a.pc.ClearClaim? || a.pc.HealIP? || a.pc.Record? {
      ClaimPatchChecks(spec, a);
    } else if a.pc.Adopt? {
      AdoptPatchChecks(spec, a);
    } else {
      UpgradePatchChecks(spec, a);
    }
  }

  lemma CallChecks(u: Uid, spec: MachineSpec, a: Actor, act: Act)
    requires Checked(a) && Move(u, spec, a, act).Some? && !a.pc.Verify?
    requires !act.Start? && !act.StartDelete? && !act.Patch?
    ensures Checked(Move(u, spec, a, act).value)
  {
    hide Move, StageOf;
    StageMoves(u, spec, a, act);
    LocalMove(u, spec, a, act);
  }

  lemma MoveChecks(u: Uid, spec: MachineSpec, a: Actor, act: Act)
    requires Checked(a) && Move(u, spec, a, act).Some?
    ensures Checked(Move(u, spec, a, act).value)
  {
    hide ClaimMove, AdoptMove, UpgradeMove, FinalMove, Intended, AfterPatch;
    if act.Patch? {
      PatchChecks(spec, a);
    } else if ClaimAct(act) {
      ClaimChecks(u, spec, a, act);
    } else if !act.Start? && !act.StartDelete? {
      OtherChecks(u, spec, a, act);
    }
  }

  lemma OtherChecks(u: Uid, spec: MachineSpec, a: Actor, act: Act)
    requires Checked(a) && Move(u, spec, a, act).Some?
    requires !act.Start? && !act.StartDelete? && !act.Patch? && !ClaimAct(act)
    ensures Checked(Move(u, spec, a, act).value)
  {
    hide Checked;
    if a.pc.Verify? {
      assert act.Abort?;
      assert Checked(a.(pc := Idle)) by {
        RestChecks(a);
      }
    } else {
      CallChecks(u, spec, a, act);
    }
  }

  lemma RestChecks(a: Actor)
    ensures Checked(a.(pc := Idle))
  {
  }

  /** The first act of the reconcile says what it started on, and with which hash. */
  predicate Opens(acts: seq<Act>, a: Actor) {
    !StageOf(a.pc).Resting? && !StageOf(a.pc).Leaving? ==> acts != [] && acts[0] == Start(a.base, a.hash)
  }

  lemma MoveOpens(u: Uid, spec: MachineSpec, a: Actor, act: Act, acts: seq<Act>)
    requires Opens(acts, a) && Move(u, spec, a, act).Some?
    ensures Opens(if act.Start? || act.StartDelete? then [act] else acts + [act], Move(u, spec, a, act).value)
  {
    hide StageOf, Intended, AfterPatch;
    if act.Start? || act.StartDelete? {
      Begins(u, spec, a, act);
    } else {
      Stays(u, spec, a, act);
    }
  }

  lemma Begins(u: Uid, spec: MachineSpec, a: Actor, act: Act)
    requires Move(u, spec, a, act).Some? && (act.Start? || act.StartDelete?)
    ensures Opens([act], Move(u, spec, a, act).value)
  {
  }

  lemma Stays(u: Uid, spec: MachineSpec, a: Actor, act: Act)
    requires Move(u, spec, a, act).Some? && !act.Start? && !act.StartDelete?
    ensures var a' := Move(u, spec, a, act).value;
            && a'.base == a.base && a'.hash == a.hash
            && (StageOf(a.pc).Resting? || StageOf(a.pc).Leaving? ==> StageOf(a'.pc).Resting? || StageOf(a'.pc).Leaving?)
  {
    hide Move, StageOf;
    if act.Patch? {
      PatchIntended(u, spec, a, act);
      PatchStays(u, spec, a, act);
    } else {
      LocalMove(u, spec, a, act);
      if a.pc.Verify? {
        Verifying(a);
      } else {
        StageMoves(u, spec, a, act);
      }
    }
  }

  lemma Verifying(a: Actor)
    requires a.pc.Verify?
    ensures StageOf(a.pc).Claiming?
  {
  }

  lemma PatchStays(u: Uid, spec: MachineSpec, a: Actor, act: Act)
    requires act.Patch? && Move(u, spec, a, act).Some?
    ensures var a' := Move(u, spec, a, act).value; a'.base == a.base && a'.hash == a.hash
    ensures !StageOf(a.pc).Resting? && !StageOf(a.pc).Leaving?
  {
    hide AfterPatch;
  }

  lemma {:induction false} CheckedAlways(first: World, log: seq<Step>, w: World, u: Uid)
    requires Ran(first, log, w) && u in w.machines
    ensures Checked(w.machines[u].actor) && Opens(Acts(log, u), w.machines[u].actor)
  {
    hide Init, Next, Move, Possible, HostsAfter, StoredAfter, HistoryAfter, SpecEdit, Checked, Opens;
    if log == [] {
      NotStarted(w, u);
    } else {
      var earlier, step := log[..|log| - 1], Last(log);
      var before := Play(first, earlier).value;
      StepKeepsMachines(before, step);
      CheckedAlways(first, earlier, before, u);
      ActsSnoc(earlier, step, u);
      assert earlier + [step] == log;
      if step.MachineStep? && step.u == u {
        OwnStep(before, u, step.act);
        MoveChecks(u, before.machines[u].spec, before.machines[u].actor, step.act);
        MoveOpens(u, before.machines[u].spec, before.machines[u].actor, step.act, Acts(earlier, u));
      } else {
        OthersStep(before, step, u);
      }
    }
  }

  lemma NotStarted(w: World, u: Uid)
    requires Init(w) && u in w.machines
    ensures Checked(w.machines[u].actor) && Opens([], w.machines[u].actor)
  {
  }

  /** Where a reconcile that adopts, upgrades or links is, its log tells the record and the hash
      it started with. Unless it started on Failed, the upgrade and the link are reached only by a
      machine that is ready and carries the config with that hash, in memory as in the store. A
      config is applied, for the first time or again, only to a machine that does not, and
      never by a reconcile that started on Failed. */
  lemma {:induction false} AppliesWhatChanged(first: World, log: seq<Step>, w: World, u: Uid)
    requires Ran(first, log, w) && u in w.machines
    requires StageOf(w.machines[u].actor.pc) !in {Resting, Leaving, Claiming}
    ensures var a, s, acts := w.machines[u].actor, w.machines[u].stored, Acts(log, u);
            && acts != [] && acts[0].Start?
            && var self, hash := acts[0].self, acts[0].hash;
            && (StageOf(a.pc).Adopting? ==>
                  && self.upgrade != Failed
                  && (a.local.ready ==> a.local.providerID == "" || a.local.configSHA != hash)
                  && (s.ready ==> s.providerID == "" || s.configSHA != hash))
            && (!StageOf(a.pc).Adopting? && self.upgrade != Failed ==>
                  && a.local.ready && a.local.providerID != "" && a.local.configSHA == hash
                  && s.ready && s.providerID != "" && s.configSHA == hash)
            && (!StageOf(a.pc).Adopting? && !StageOf(a.pc).Linking? ==> a.local.desired != "" && a.local.ready)
  {
    hide Init, Next, StageOf, Journal;
    CheckedAlways(first, log, w, u);
    BookOf(first, log, w, u);
  }
}
