/** The ByotMachine reconciler. Its methods assign the fields of the in-memory machine and
    of the hosts they read; every call they make is proved to be the one the protocol allows
    at that point, and every patch to carry exactly the record the protocol prescribes. */
module MachineReconciler {
  import opened Common
  import opened Records
  import opened MachineProtocol
  import opened World
  import opened Reconciles
  import opened UpgradeProperties
  import opened ClaimSelection
  import opened Objects
  import opened Cluster
  import opened ReconcilePaths

  class ByotMachineReconciler {
    const api: ApiServer
    const uid: Uid

    constructor (api: ApiServer, uid: Uid)
      ensures this.api == api && this.uid == uid
    {
      this.api := api;
      this.uid := uid;
    }

    /** The reconcile is at this point, with m as last committed. */
    ghost predicate At(m: ByotMachine, pc: Pc)
      reads this, api, m
    {
      api.Serves(uid) && api.ActorOf(uid).pc == pc && api.ActorOf(uid).local == m.Rec()
    }

    /** The reconcile is at a patch that commits m as it is now. */
    ghost predicate Commits(m: ByotMachine)
      reads this, api, m
    {
      api.Serves(uid) && Intended(api.ActorOf(uid)) == Some(m.Rec())
    }

    /** The reconcile is over. */
    ghost predicate Done()
      reads this, api
    {
      api.Serves(uid) && api.ActorOf(uid).pc.Idle?
    }

    function Spec(): MachineSpec
      requires uid in api.w.machines
      reads this, api
    {
      api.Spec(uid)
    }

    ghost function Hash(): string
      requires uid in api.w.machines
      reads this, api
    {
      api.ActorOf(uid).hash
    }

    ghost function Trail(): seq<Act>
      reads this, api
    {
      api.Trail(uid)
    }

    /** What every method keeps. */
    twostate predicate Onward()
      requires uid in old(api.w.machines)
      reads this, api
    {
      && api.Serves(uid) && old(api.log) <= api.log && Spec() == old(Spec()) && Hash() == old(Hash())
      && api.Started(uid) == old(api.Started(uid))
    }

    /** patchHelper.Patch */
    method Patch(m: ByotMachine) returns (err: bool)
      requires Commits(m)
      modifies api
      ensures Onward()
      ensures err ==> Done()
      ensures !err ==> At(m, AfterPatch(Spec(), old(api.ActorOf(uid)).pc, m.Rec(), Hash()))
      ensures Trail() == old(Trail()) + [if err then Abort else Act.Patch(m.Rec())]
    {
      hide Ran, AfterPatch, Intended;
      err := api.PatchRecord(uid, m.Rec());
    }

    // ---------- Reconcile ----------

    /** Nothing is left to reconcile. */
    ghost predicate Finished()
      requires uid in api.w.machines
      reads this, api
    {
      var m := api.w.machines[uid];
      m.gone || (m.stored.deleting && !m.stored.finalizer)
    }

    /** One reconcile, from rest to rest, whatever the others do and wherever it is cut short:
        the log stays a run, so every property of runs holds of it. */
    method Reconcile(hash: string)
      requires Done()
      modifies api
      ensures Done() && old(api.log) <= api.log && Spec() == old(Spec())
      ensures if api.Started(uid) == old(api.Started(uid)) then Finished() && Trail() == old(Trail())
              else api.Started(uid) == old(api.Started(uid)) + 1 && IsReconcile(Trail(), uid, Spec(), hash)
      ensures Increasing(Installs(api.first, api.log, uid))
    {
      hide Ran, Increasing, Installs, Adopts, Deletes;
      var self := api.GetSelf(uid, hash);
      if self.Some? {
        var m := new ByotMachine(self.value);
        if m.deleting {
          if m.finalizer {
            ReconcileDelete(m);
          }
        } else {
          Adopt(m, hash);
        }
      }
      InstallOncePerGeneration(api.first, api.log, api.w, uid);
    }

    method Adopt(m: ByotMachine, hash: string)
      requires At(m, if m.resolvedHost.Some? then Verify else Select) && Hash() == hash
      modifies api, m
      ensures Done() && Onward()
      ensures Adopts(old(Trail()), Trail(), uid, Spec(), old(m.Rec()), hash)
    {
      hide Ran, EnsurePc, Intended, AfterPatch, AfterRead, ToPut, GatePc, AfterVersion, AfterBoot, LeastCandidate, ClaimsHost,
        AdoptsClaimed, DecidePc;
      var wait := api.AdoptionInputs(uid);
      if wait {
        return;
      }
      var handled := ClaimHost(m);
      if handled {
        return;
      }
      AdoptClaimed(m, hash);
    }

    /** adopt, once the claim is settled. */
    method AdoptClaimed(m: ByotMachine, hash: string)
      requires At(m, DecidePc(m.Rec(), hash)) && Hash() == hash
      modifies api, m
      ensures Done() && Onward()
      ensures AdoptsClaimed(old(Trail()), Trail(), Spec(), old(m.Rec()), hash)
    {
      hide Ran, EnsurePc, Intended, AfterPatch, AfterRead, ToPut, GatePc, AfterVersion, AfterBoot, LeastCandidate, RunsAdopted,
        AppliesAndAdopts;
      if m.upgrade == Failed {
        ReconcileAdopted(m);
        return;
      }
      if ConfigUnchanged(m.Rec(), hash) {
        ReconcileAdopted(m);
        return;
      }
      ApplyAndMarkAdopted(m, hash);
    }

    method ReconcileAdopted(m: ByotMachine)
      requires At(m, EnsurePc(m.Rec()))
      modifies api, m
      ensures Done() && Onward()
      ensures RunsAdopted(old(Trail()), Trail(), Spec(), old(m.Rec()))
      ensures old(m.desired == "" || !m.ready) ==> LinksNode(old(Trail()), Trail(), old(m.Rec()))
    {
      hide Ran, Dispatches, LinksNode, EnsurePc;
      var handled := EnsureTalosVersion(m);
      if handled {
        return;
      }
      LinkNode(m);
    }

    // ---------- Claim ----------

    method ClaimHost(m: ByotMachine) returns (handled: bool)
      requires At(m, if m.resolvedHost.Some? then Verify else Select)
      modifies api, m
      ensures Onward()
      ensures handled ==> Done()
      ensures !handled ==> m.resolvedHost.Some? && At(m, DecidePc(m.Rec(), Hash()))
      ensures ClaimsHost(old(Trail()), Trail(), uid, Spec(), old(m.Rec()), handled, m.Rec())
    {
      hide Ran, DecidePc, EnsurePc, Intended, AfterPatch, AfterRead, ToPut, Verifies, ClaimsAnother;
      var err, kept := VerifyExistingClaim(m);
      if err {
        return true;
      }
      if kept {
        return false;
      }
      handled := ClaimAnother(m);
    }

    method ClaimAnother(m: ByotMachine) returns (handled: bool)
      requires At(m, Select)
      modifies api, m
      ensures Onward()
      ensures handled ==> Done()
      ensures !handled ==> m.resolvedHost.Some? && At(m, DecidePc(m.Rec(), Hash()))
      ensures ClaimsAnother(old(Trail()), Trail(), uid, Spec(), old(m.Rec()), handled, m.Rec())
    {
      hide Ran, DecidePc, Intended, AfterPatch, AfterRead, ToPut, Resolves, ClaimsResolved;
      var err, host := ResolveClaimCandidate(m);
      if err || host.None? {
        return true;
      }
      handled := ClaimResolved(m, host.value);
    }

    method ClaimResolved(m: ByotMachine, host: Listed) returns (handled: bool)
      requires At(m, CasGet(host.name, host.rec.publicIP))
      modifies api, m
      ensures Onward()
      ensures handled ==> Done()
      ensures !handled ==> m.resolvedHost.Some? && At(m, DecidePc(m.Rec(), Hash()))
      ensures ClaimsResolved(old(Trail()), Trail(), uid, host, old(m.Rec()), handled, m.Rec())
    {
      hide Ran, DecidePc, Intended, AfterPatch, AfterRead, ToPut, PutsClaim;
      var err := ClaimCAS(m, host);
      if err {
        return true;
      }
      handled := RecordClaim(m, host);
    }

    method RecordClaim(m: ByotMachine, host: Listed) returns (err: bool)
      requires At(m, Record(host.name, host.rec.publicIP))
      modifies api, m
      ensures Onward()
      ensures err ==> Done()
      ensures !err ==> m.resolvedHost.Some? && At(m, DecidePc(m.Rec(), Hash()))
      ensures m.Rec() == old(m.Rec()).(resolvedHost := Some(host.name), resolvedIP := host.rec.publicIP)
      ensures Saves(old(Trail()), Trail(), m.Rec(), err)
    {
      hide Ran, DecidePc, ToPut, AfterRead, GatePc;
      ResolveTo(m, host);
      err := Patch(m);
    }

    method ResolveTo(m: ByotMachine, host: Listed)
      modifies m
      ensures m.Rec() == old(m.Rec()).(resolvedHost := Some(host.name), resolvedIP := host.rec.publicIP)
    {
      m.resolvedHost := Some(host.name);
      m.resolvedIP := host.rec.publicIP;
    }

    method VerifyExistingClaim(m: ByotMachine) returns (err: bool, kept: bool)
      requires At(m, if m.resolvedHost.Some? then Verify else Select)
      modifies api, m
      ensures Onward()
      ensures err ==> Done()
      ensures !err && kept ==> m.resolvedHost.Some? && At(m, DecidePc(m.Rec(), Hash()))
      ensures !err && !kept ==> m.resolvedHost.None? && At(m, Select)
      ensures old(m.resolvedHost).None? ==> !err && !kept && Trail() == old(Trail()) && m.Rec() == old(m.Rec())
      ensures old(m.resolvedHost).Some? ==>
                exists seen :: Verifies(old(Trail()), Trail(), uid, old(m.Rec()), seen, err, kept, m.Rec())
    {
      hide Ran, DecidePc, ToPut;
      if m.resolvedHost.None? {
        return false, false;
      }
      var seen;
      err, seen := api.Get(uid);
      if err {
        assert Verifies(old(Trail()), Trail(), uid, old(m.Rec()), seen, true, false, m.Rec());
        return true, false;
      }
      kept := seen.Version? && seen.rec.claimRef.Some? && seen.rec.claimRef.value == uid;
      if kept {
        err := HealAddress(m, seen.rec.publicIP);
      } else {
        err := ClearResolvedHost(m);
      }
      assert Verifies(old(Trail()), Trail(), uid, old(m.Rec()), seen, err, kept, m.Rec());
    }

    /** The resolved address follows the host's. */
    method HealAddress(m: ByotMachine, ip: string) returns (err: bool)
      requires api.Serves(uid) && At(m, if m.resolvedIP != ip then HealIP(ip) else DecidePc(m.Rec(), Hash()))
      modifies api, m
      ensures Onward()
      ensures err ==> Done()
      ensures !err ==> At(m, DecidePc(m.Rec(), Hash()))
      ensures m.Rec() == old(m.Rec()).(resolvedIP := ip)
      ensures if old(m.resolvedIP) == ip then !err && Trail() == old(Trail()) else Saves(old(Trail()), Trail(), m.Rec(), err)
    {
      hide Ran, DecidePc, ToPut;
      if m.resolvedIP != ip {
        m.resolvedIP := ip;
        err := Patch(m);
      } else {
        err := false;
      }
    }

    method ClearResolvedHost(m: ByotMachine) returns (err: bool)
      requires At(m, ClearClaim)
      modifies api, m
      ensures Onward()
      ensures err ==> Done()
      ensures !err ==> m.resolvedHost.None? && At(m, Select)
      ensures m.Rec() == old(m.Rec()).(resolvedHost := None, resolvedIP := "")
      ensures Saves(old(Trail()), Trail(), m.Rec(), err)
    {
      hide Ran, ToPut, AfterRead, GatePc, DecidePc, EnsurePc;
      Unresolve(m);
      err := Patch(m);
    }

    method Unresolve(m: ByotMachine)
      modifies m
      ensures m.Rec() == old(m.Rec()).(resolvedHost := None, resolvedIP := "")
    {
      m.resolvedHost := None;
      m.resolvedIP := "";
    }

    method ResolveClaimCandidate(m: ByotMachine) returns (err: bool, host: Option<Listed>)
      requires At(m, Select)
      modifies api
      ensures Onward()
      ensures err || host.None? ==> Done()
      ensures !err && host.Some? ==> At(m, CasGet(host.value.name, host.value.rec.publicIP))
      ensures Resolves(old(Trail()), Trail(), uid, Spec(), err, host)
    {
      hide Ran, ReadsNamed, Lists;
      if Spec().hostRef.Some? {
        err, host := ResolveHostRef(m);
      } else {
        err, host := SelectClaimCandidate(m);
      }
    }

    method ResolveHostRef(m: ByotMachine) returns (err: bool, host: Option<Listed>)
      requires At(m, Select) && Spec().hostRef.Some?
      modifies api
      ensures Onward()
      ensures err || host.None? ==> Done()
      ensures !err && host.Some? ==> At(m, CasGet(host.value.name, host.value.rec.publicIP))
      ensures exists seen :: ReadsNamed(old(Trail()), Trail(), uid, Spec().hostRef.value, seen, err, host)
    {
      hide Ran;
      host := None;
      var seen;
      err, seen := api.Get(uid);
      if err {
        assert ReadsNamed(old(Trail()), Trail(), uid, Spec().hostRef.value, seen, true, host);
        return;
      }
      if seen.Version? && seen.rec.phase == Available && seen.rec.probed {
        if seen.rec.claimRef.None? || seen.rec.claimRef.value == uid {
          host := Some(Listed(Spec().hostRef.value, seen.at, seen.rec));
        }
      }
      assert ReadsNamed(old(Trail()), Trail(), uid, Spec().hostRef.value, seen, false, host);
    }

    method SelectClaimCandidate(m: ByotMachine) returns (err: bool, host: Option<Listed>)
      requires At(m, Select) && Spec().hostRef.None?
      modifies api
      ensures Onward()
      ensures err || host.None? ==> Done()
      ensures !err && host.Some? ==> At(m, CasGet(host.value.name, host.value.rec.publicIP))
      ensures exists items :: Lists(old(Trail()), Trail(), uid, Spec().failureDomain, items, err, host)
    {
      hide Ran, LeastCandidate;
      host := None;
      var items;
      err, items := api.List(uid);
      if err {
        assert Lists(old(Trail()), Trail(), uid, Spec().failureDomain, items, true, host);
        return;
      }
      var candidates := FilterClaimCandidates(items, uid, Spec().failureDomain);
      var sorted := SortByName(candidates);
      SortedHead(items, sorted, uid, Spec().failureDomain);
      if |sorted| != 0 {
        host := Some(sorted[0]);
      }
      assert Lists(old(Trail()), Trail(), uid, Spec().failureDomain, items, false, host);
    }

    method ClaimCAS(m: ByotMachine, host: Listed) returns (err: bool)
      requires At(m, CasGet(host.name, host.rec.publicIP))
      modifies api
      ensures Onward()
      ensures err ==> Done()
      ensures !err ==> At(m, Record(host.name, host.rec.publicIP))
      ensures exists seen :: PutsClaim(old(Trail()), Trail(), uid, seen, err)
    {
      hide Ran, Takes, Intended, AfterPatch, ToPut, DecidePc, EnsurePc;
      var seen;
      err, seen := api.Get(uid);
      if !err {
        err := ClaimSeen(m, host, seen);
      }
      assert PutsClaim(old(Trail()), Trail(), uid, seen, err);
    }

    method ClaimSeen(m: ByotMachine, host: Listed, seen: Seen) returns (err: bool)
      requires api.Serves(uid)
      requires At(m, if seen.Missing? || (seen.rec.claimRef.Some? && seen.rec.claimRef != Some(uid)) then Idle
                     else CasPut(host.name, host.rec.publicIP, seen.at, seen.rec))
      modifies api
      ensures Onward()
      ensures err ==> Done()
      ensures !err ==> At(m, Record(host.name, host.rec.publicIP))
      ensures if seen.Version? && seen.rec.claimRef in {None, Some(uid)} then
                Takes(old(Trail()), Trail(), seen.rec.(claimRef := Some(uid), phase := Phase.Claimed), err)
              else err && Trail() == old(Trail())
    {
      hide Ran, Takes, Intended, AfterPatch, ToPut, DecidePc, EnsurePc;
      if seen.Missing? {
        return true;
      }
      if seen.rec.claimRef.Some? && seen.rec.claimRef.value != uid {
        return true;
      }
      err := PutClaim(m, host, seen.rec, seen.at);
    }

    method PutClaim(m: ByotMachine, host: Listed, seen: HostRec, ghost at: nat) returns (err: bool)
      requires At(m, CasPut(host.name, host.rec.publicIP, at, seen))
      modifies api
      ensures Onward()
      ensures err ==> Done()
      ensures !err ==> At(m, Record(host.name, host.rec.publicIP))
      ensures Takes(old(Trail()), Trail(), seen.(claimRef := Some(uid), phase := Phase.Claimed), err)
    {
      hide Ran, Intended, AfterPatch, AfterRead, DecidePc, EnsurePc;
      var latest := new ByotHost(seen);
      MarkClaimed(latest);
      err := api.UpdateStatus(uid, latest.Rec());
      if err {
        return;
      }
      if !latest.finalizer {
        err := api.UpdateFinalizer(uid);
      }
    }

    method MarkClaimed(host: ByotHost)
      modifies host
      ensures host.Rec() == old(host.Rec()).(claimRef := Some(uid), phase := Phase.Claimed)
    {
      host.claimRef := Some(uid);
      host.phase := Phase.Claimed;
    }

    // ---------- Release ----------

    method ReconcileDelete(m: ByotMachine)
      requires At(m, if m.resolvedHost.Some? then ReleaseGet else ReleaseFinalizer) && m.finalizer
      modifies api
      ensures Done() && Onward()
      ensures Deletes(old(Trail()), Trail(), m.Rec())
    {
      hide Ran, ReleasesSeen;
      if m.resolvedHost.Some? {
        var err := ReleaseHost(m);
        if err {
          return;
        }
      }
      assert Releases(old(Trail()), Trail(), m.Rec(), false);
      var err := api.RemoveSelfFinalizer(uid);
    }

    method ReleaseHost(m: ByotMachine) returns (err: bool)
      requires At(m, if m.resolvedHost.Some? then ReleaseGet else ReleaseFinalizer)
      modifies api
      ensures Onward()
      ensures err ==> Done()
      ensures !err ==> At(m, ReleaseFinalizer)
      ensures Releases(old(Trail()), Trail(), m.Rec(), err)
    {
      hide Ran, ReleasesSeen, Intended, AfterPatch, ToPut, DecidePc, EnsurePc;
      if m.resolvedHost.None? {
        return false;
      }
      ghost var read;
      err, read := ReleaseResolved(m);
    }

    method ReleaseResolved(m: ByotMachine) returns (err: bool, ghost read: Seen)
      requires At(m, ReleaseGet) && m.resolvedHost.Some?
      modifies api
      ensures Onward()
      ensures err ==> Done()
      ensures !err ==> At(m, ReleaseFinalizer)
      ensures ReleasesSeen(old(Trail()), Trail(), read, err)
    {
      hide Ran, PutsRelease, Intended, AfterPatch, ToPut, DecidePc, EnsurePc, GatePc, LeastCandidate, ClaimableBy, AfterVersion;
      var seen;
      err, seen := api.Get(uid);
      read := seen;
      if !err && seen.Version? {
        err := ReleaseSeen(m, seen.rec, seen.at);
      }
    }

    method ReleaseSeen(m: ByotMachine, rec: HostRec, ghost at: nat) returns (err: bool)
      requires At(m, ReleaseProbe(at, rec))
      modifies api
      ensures Onward()
      ensures err ==> Done()
      ensures !err ==> At(m, ReleaseFinalizer)
      ensures PutsRelease(old(Trail()), Trail(), rec, err)
    {
      hide Ran, PutsRelease, Intended, AfterPatch, AfterRead, ToPut, DecidePc, EnsurePc, GatePc;
      var host := new ByotHost(rec);
      err := ProbeOrReset(m, host, at);
    }

    method ProbeOrReset(m: ByotMachine, host: ByotHost, ghost at: nat) returns (err: bool)
      requires At(m, ReleaseProbe(at, host.Rec()))
      modifies api, host
      ensures Onward()
      ensures err ==> Done()
      ensures !err ==> At(m, ReleaseFinalizer)
      ensures PutsRelease(old(Trail()), Trail(), old(host.Rec()), err)
    {
      hide Ran, Puts, Intended, AfterPatch, AfterRead, ToPut, GatePc, DecidePc, EnsurePc;
      var maintenance := api.ProbeMaintenanceMode(uid);
      if maintenance {
        err := GiveBack(m, host, at, Available);
      } else {
        err := ResetAndGiveBack(m, host, at);
      }
    }

    method ResetAndGiveBack(m: ByotMachine, host: ByotHost, ghost at: nat) returns (err: bool)
      requires At(m, ReleaseReset(at, host.Rec()))
      modifies api, host
      ensures Onward()
      ensures err ==> Done()
      ensures !err ==> At(m, ReleaseFinalizer)
      ensures || (err && Trail() == old(Trail()) + [Reset(false)])
              || Puts(old(Trail()) + [Reset(true)], Trail(), old(host.Rec()).(phase := Releasing, claimRef := None), err)
    {
      hide Ran, Puts, Intended, AfterPatch, AfterRead, ToPut, GatePc, DecidePc, EnsurePc;
      err := api.ResetMachine(uid);
      if !err {
        err := GiveBack(m, host, at, Releasing);
      }
    }

    method GiveBack(m: ByotMachine, host: ByotHost, ghost at: nat, phase: Phase) returns (err: bool)
      requires At(m, ReleasePut(at, host.Rec(), phase))
      modifies api, host
      ensures Onward()
      ensures err ==> Done()
      ensures !err ==> At(m, ReleaseFinalizer)
      ensures Puts(old(Trail()), Trail(), old(host.Rec()).(phase := phase, claimRef := None), err)
    {
      hide Ran, Intended, AfterPatch, AfterRead;
      Unclaim(host, phase);
      err := api.UpdateStatus(uid, host.Rec());
    }

    method Unclaim(host: ByotHost, phase: Phase)
      modifies host
      ensures host.Rec() == old(host.Rec()).(phase := phase, claimRef := None)
    {
      host.phase := phase;
      host.claimRef := None;
    }

    // ---------- Adoption ----------

    method ApplyAndMarkAdopted(m: ByotMachine, hash: string)
      requires At(m, if m.ready then NeedConfig(ForReapply) else Preflight) && Hash() == hash
      modifies api, m
      ensures Done() && Onward()
      ensures AppliesAndAdopts(old(Trail()), Trail(), Spec(), old(m.Rec()), hash)
    {
      hide Ran, DecidePc, EnsurePc, GatePc, Intended, AfterPatch, AfterRead, ToPut, Applies, RunsAdopted;
      var err := ApplyConfiguration(m);
      if !err {
        FinishAdoption(m, hash);
      }
    }

    method FinishAdoption(m: ByotMachine, hash: string)
      requires At(m, Pc.Adopt) && Hash() == hash
      modifies api, m
      ensures Done() && Onward()
      ensures var adopted := old(m.Rec()).(providerID := PROVIDER_PREFIX + old(m.resolvedIP), ready := true, configSHA := hash);
              || Trail() == old(Trail()) + [Abort]
              || RunsAdopted(old(Trail()) + [Act.Patch(adopted)], Trail(), Spec(), adopted)
    {
      hide Ran, EnsurePc, RunsAdopted;
      var err := CommitAdoption(m, hash);
      if !err {
        ReconcileAdopted(m);
      }
    }

    /** The authorised and, for a new worker, gated apply. */
    method ApplyConfiguration(m: ByotMachine) returns (err: bool)
      requires At(m, if m.ready then NeedConfig(ForReapply) else Preflight)
      modifies api
      ensures Onward()
      ensures err ==> Done()
      ensures !err ==> At(m, Pc.Adopt)
      ensures Applies(old(Trail()), Trail(), Spec(), m.Rec(), err)
    {
      hide Ran, GatePc, Authorises, GatesAndApplies;
      var wait, auth := ResolveApplyAuth(m);
      if wait {
        return true;
      }
      ghost var tag;
      err, tag := GateAndApply(m, auth);
    }

    method GateAndApply(m: ByotMachine, auth: Auth) returns (err: bool, ghost tag: string)
      requires api.Serves(uid) && At(m, if m.ready then Apply(auth) else GatePc(Spec(), auth))
      modifies api
      ensures Onward()
      ensures err ==> Done()
      ensures !err ==> At(m, Pc.Adopt)
      ensures GatesAndApplies(old(Trail()), Trail(), Spec(), m.Rec(), tag, err)
    {
      hide Ran, GatePc;
      tag := "";
      if !m.ready {
        var handled := AwaitControlPlaneReady(m, auth);
        if handled {
          return true, tag;
        }
      }
      err, tag := api.ApplyMachineConfig(uid);
    }

    method CommitAdoption(m: ByotMachine, hash: string) returns (err: bool)
      requires At(m, Pc.Adopt) && Hash() == hash
      modifies api, m
      ensures Onward()
      ensures err ==> Done()
      ensures !err ==> At(m, EnsurePc(m.Rec()))
      ensures m.Rec() == old(m.Rec()).(providerID := PROVIDER_PREFIX + m.resolvedIP, ready := true, configSHA := hash)
      ensures Saves(old(Trail()), Trail(), m.Rec(), err)
    {
      hide Ran, EnsurePc;
      MarkAdopted(m, hash);
      err := Patch(m);
    }

    method MarkAdopted(m: ByotMachine, hash: string)
      modifies m
      ensures m.Rec() == old(m.Rec()).(providerID := PROVIDER_PREFIX + m.resolvedIP, ready := true, configSHA := hash)
    {
      m.providerID := PROVIDER_PREFIX + m.resolvedIP;
      m.ready := true;
      m.configSHA := hash;
    }

    method ResolveApplyAuth(m: ByotMachine) returns (wait: bool, auth: Auth)
      requires At(m, if m.ready then NeedConfig(ForReapply) else Preflight)
      modifies api
      ensures Onward()
      ensures wait ==> Done()
      ensures !wait ==> At(m, if m.ready then Apply(auth) else GatePc(Spec(), auth))
      ensures Authorises(old(Trail()), Trail(), Spec(), m.Rec(), wait, auth)
    {
      hide Ran, Joins;
      if m.ready {
        var found := api.TalosConfig(uid);
        return !found, ClusterBundle;
      }
      wait, auth := PreflightJoin(m);
    }

    method PreflightJoin(m: ByotMachine) returns (wait: bool, auth: Auth)
      requires At(m, Preflight)
      modifies api
      ensures Onward()
      ensures wait ==> Done()
      ensures !wait ==> At(m, GatePc(Spec(), auth))
      ensures Joins(old(Trail()), Trail(), Spec(), wait, auth)
    {
      hide Ran, Intended, AfterPatch, AfterRead, ToPut, GatePc, DecidePc, EnsurePc, ProbesBundle;
      var maintenance := api.ProbeMaintenanceMode(uid);
      if maintenance {
        return false, Insecure;
      }
      wait, auth := PreflightBundle(m);
    }

    /** The rest of preflightJoin, for a machine that is not in maintenance. */
    method PreflightBundle(m: ByotMachine) returns (wait: bool, auth: Auth)
      requires At(m, NeedConfig(ForPreflight))
      modifies api
      ensures Onward()
      ensures wait ==> Done()
      ensures !wait ==> At(m, GatePc(Spec(), auth))
      ensures ProbesBundle(old(Trail()), Trail(), Spec(), wait, auth)
    {
      hide Ran, Intended, AfterPatch, AfterRead, ToPut, GatePc, DecidePc, EnsurePc, ProbesForeign;
      var found := api.TalosConfig(uid);
      if !found {
        return true, ClusterBundle;
      }
      var accepted := api.ProbeAuthenticated(uid, ClusterBundle);
      if accepted {
        return false, ClusterBundle;
      }
      wait := PreflightForeignMachine(m);
      return wait, ReferencedBundle;
    }

    method PreflightForeignMachine(m: ByotMachine) returns (wait: bool)
      requires api.Serves(uid) && At(m, if Spec().talosRef.None? then Idle else NeedConfig(ForReference))
      modifies api
      ensures Onward()
      ensures wait ==> Done()
      ensures !wait ==> At(m, GatePc(Spec(), ReferencedBundle))
      ensures ProbesForeign(old(Trail()), Trail(), Spec(), wait)
    {
      hide Ran;
      if Spec().talosRef.None? {
        return true;
      }
      var found := api.TalosConfig(uid);
      if !found {
        return true;
      }
      wait := api.ProbeAuthenticated(uid, ReferencedBundle);
    }

    method AwaitControlPlaneReady(m: ByotMachine, auth: Auth) returns (handled: bool)
      requires api.Serves(uid) && At(m, GatePc(Spec(), auth))
      modifies api
      ensures Onward()
      ensures handled ==> Done()
      ensures !handled ==> At(m, Apply(auth))
      ensures if Spec().worker then Trail() == old(Trail()) + [CheckControlPlane(!handled)]
              else !handled && Trail() == old(Trail())
    {
      hide Ran;
      if !Spec().worker {
        return false;
      }
      var ready := api.ControlPlaneReady(uid);
      return !ready;
    }

    // ---------- Upgrade ----------

    method EnsureTalosVersion(m: ByotMachine) returns (handled: bool)
      requires At(m, EnsurePc(m.Rec()))
      modifies api, m
      ensures Onward()
      ensures handled ==> Done()
      ensures !handled ==> At(m, Link)
      ensures Upgrades(old(Trail()), Trail(), Spec(), old(m.Rec()), handled, m.Rec())
    {
      hide Ran, Dispatches, DispatchPc;
      if m.desired == "" {
        return false;
      }
      if !m.ready {
        return false;
      }
      var err := RetriggerStaleUpgradeFailure(m);
      if err {
        return true;
      }
      handled := DispatchUpgrade(m);
    }

    /** The branches of ensureTalosVersion. */
    method DispatchUpgrade(m: ByotMachine) returns (handled: bool)
      requires At(m, DispatchPc(m.Rec()))
      modifies api, m
      ensures Onward()
      ensures handled ==> Done()
      ensures !handled ==> At(m, Link)
      ensures Dispatches(old(Trail()), Trail(), Spec(), old(m.Rec()), handled, m.Rec())
    {
      hide Ran, Completes, ProbesAndIssues, FetchesAndPolls;
      match m.upgrade
      case NoUpgrade =>
        if AlreadyApplied(m.Rec()) {
          handled := MarkUpgradeComplete(m);
        } else {
          UpgradeProbeAndIssue(m);
          handled := true;
        }
      case InFlight => handled := UpgradeInFlight(m);
      case Failed => handled := true;
    }

    /** Failed, for a generation that is not the current one any more. */
    predicate StaleFailure(m: ByotMachine)
      reads m
    {
      m.upgrade == Failed && m.generation != m.attemptGeneration
    }

    method RetriggerStaleUpgradeFailure(m: ByotMachine) returns (err: bool)
      requires At(m, EnsurePc(m.Rec())) && m.desired != "" && m.ready
      modifies api, m
      ensures Onward()
      ensures err ==> Done()
      ensures !err ==> At(m, DispatchPc(m.Rec()))
      ensures m.Rec() == if old(StaleFailure(m)) then old(m.Rec()).(upgrade := NoUpgrade, probeFailures := 0) else old(m.Rec())
      ensures if old(StaleFailure(m)) then Trail() == old(Trail()) + [if err then Abort else Act.Patch(m.Rec())]
              else !err && Trail() == old(Trail())
    {
      hide Ran;
      if m.upgrade != Failed || m.generation == m.attemptGeneration {
        return false;
      }
      m.upgrade := NoUpgrade;
      m.probeFailures := 0;
      err := Patch(m);
    }

    method UpgradeProbeAndIssue(m: ByotMachine)
      requires At(m, NeedConfig(ForIssue))
      modifies api, m
      ensures Done() && Onward()
      ensures ProbesAndIssues(old(Trail()), Trail(), old(m.Rec()), Spec().versionThreshold)
    {
      hide Ran, CountsFailure, Issues, WrittenAhead, Intended, AfterPatch, AfterRead, ToPut, DecidePc, EnsurePc;
      ghost var ready := Trail() + [FetchConfig(true)];
      var found := api.TalosConfig(uid);
      if !found {
        return;
      }
      var answer := api.Version(uid);
      if answer.NoVersion? {
        RecordUpgradeProbeFailure(m, Spec().versionThreshold, false);
        return;
      }
      IssueAfter(m, answer.tag);
      assert IssuesAfter(ready + [ReadVersion(Tag(answer.tag))], Trail(), WrittenAhead(old(m.Rec()), answer.tag));
    }

    method IssueAfter(m: ByotMachine, tag: string)
      requires At(m, WriteAhead(tag))
      modifies api, m
      ensures Done() && Onward()
      ensures IssuesAfter(old(Trail()), Trail(), WrittenAhead(old(m.Rec()), tag))
    {
      hide Ran, Issues, WrittenAhead, Intended, AfterPatch, AfterRead, ToPut, DecidePc, EnsurePc;
      var err := WriteAheadOf(m, tag);
      if !err {
        IssueUpgrade(m);
      }
    }

    /** InFlight is stored before the upgrade is issued. */
    method WriteAheadOf(m: ByotMachine, tag: string) returns (err: bool)
      requires At(m, WriteAhead(tag))
      modifies api, m
      ensures Onward()
      ensures err ==> Done()
      ensures !err ==> At(m, Issue)
      ensures m.Rec() == WrittenAhead(old(m.Rec()), tag)
      ensures Trail() == old(Trail()) + [if err then Abort else Act.Patch(m.Rec())]
    {
      hide Ran;
      m.talosVersion := tag;
      m.probeFailures := 0;
      m.upgrade := InFlight;
      m.attemptGeneration := m.generation;
      m.preRebootBoot := 0;
      err := Patch(m);
    }

    method IssueUpgrade(m: ByotMachine)
      requires At(m, Issue)
      modifies api, m
      ensures Done() && Onward()
      ensures Issues(old(Trail()), Trail(), old(m.Rec()))
    {
      hide Ran, Evicts, DecidePc, EnsurePc, AfterRead, ToPut;
      var err, bootID, answer, done := UpgradeMachine(m);
      if err {
        FinalizeUpgradeFailure(m);
        assert Evicts(old(Trail()) + [Install(answer)], Trail(), old(m.Rec()));
        return;
      }
      StashBootId(m, bootID);
      assert Stashes(old(Trail()), Trail(), old(m.Rec()), answer, bootID, done);
    }

    method StashBootId(m: ByotMachine, bootID: BootId)
      requires At(m, Stash(bootID))
      modifies api, m
      ensures Done() && Onward()
      ensures Trail() == old(Trail()) + [Abort] ||
              Trail() == old(Trail()) + [Act.Patch(old(m.Rec()).(preRebootBoot := bootID))]
    {
      hide Ran, DecidePc, EnsurePc, AfterRead, ToPut;
      m.preRebootBoot := bootID;
      var err := Patch(m);
    }

    /** Pull and install, capture the boot-id, reboot: only an install error is one. */
    method UpgradeMachine(m: ByotMachine)
      returns (err: bool, bootID: BootId, ghost answer: InstallAnswer, ghost done: bool)
      requires At(m, Issue)
      modifies api
      ensures Onward()
      ensures At(m, if err then FailMark else Stash(bootID))
      ensures if err then !answer.Done? && Trail() == old(Trail()) + [Install(answer)]
              else answer.Done? && Trail() == old(Trail()) + [Install(answer)] + [CaptureBoot(bootID)] + [Reboot(done)]
      ensures m.Rec() == old(m.Rec())
    {
      hide Ran;
      bootID, done := 0, false;
      err, answer := api.PullAndInstall(uid);
      if err {
        return;
      }
      bootID := api.CaptureBootId(uid);
      done := api.RebootMachine(uid);
    }

    method RecordUpgradeProbeFailure(m: ByotMachine, threshold: nat, resetOnFailure: bool)
      requires At(m, CountFailure(resetOnFailure))
      requires threshold == if resetOnFailure then Spec().upgradeThreshold else Spec().versionThreshold
      modifies api, m
      ensures Done() && Onward()
      ensures CountsFailure(old(Trail()), Trail(), old(m.Rec()), threshold, resetOnFailure)
    {
      hide Ran, AfterRead, ToPut, GatePc, DecidePc, EnsurePc, DispatchPc, MirrorPc, Evicts;
      var err := CountProbe(m, resetOnFailure);
      if err {
        return;
      }
      if m.probeFailures >= threshold {
        if resetOnFailure {
          FinalizeUpgradeFailure(m);
          return;
        }
        StopProbing(m);
      }
    }

    method CountProbe(m: ByotMachine, ghost resetOnFailure: bool) returns (err: bool)
      requires At(m, CountFailure(resetOnFailure))
      modifies api, m
      ensures Onward()
      ensures m.Rec() == old(m.Rec()).(probeFailures := old(m.probeFailures) + 1)
      ensures Trail() == old(Trail()) + [if err then Abort else Act.Patch(m.Rec())]
      ensures err ==> Done()
      ensures !err ==> At(m, AfterPatch(Spec(), CountFailure(resetOnFailure), m.Rec(), Hash()))
    {
      hide Ran, AfterPatch;
      m.probeFailures := m.probeFailures + 1;
      err := Patch(m);
    }

    method StopProbing(m: ByotMachine)
      requires At(m, GiveUp)
      modifies api, m
      ensures Done() && Onward()
      ensures var failed := old(m.Rec()).(upgrade := Failed, attemptGeneration := old(m.generation));
              Trail() == old(Trail()) + [Abort] || Trail() == old(Trail()) + [Act.Patch(failed)]
    {
      hide Ran, AfterRead, ToPut, GatePc, DecidePc, EnsurePc, DispatchPc, MirrorPc;
      MarkFailed(m);
      var err := Patch(m);
    }

    method MarkFailed(m: ByotMachine)
      modifies m
      ensures m.Rec() == old(m.Rec()).(upgrade := Failed, attemptGeneration := m.generation)
    {
      m.upgrade := Failed;
      m.attemptGeneration := m.generation;
    }

    method FinalizeUpgradeFailure(m: ByotMachine)
      requires At(m, FailMark)
      modifies api, m
      ensures Done() && Onward()
      ensures Evicts(old(Trail()), Trail(), old(m.Rec()))
    {
      hide Ran, AfterRead, ToPut, DecidePc, EnsurePc, Intended, AfterPatch;
      var err := CommitFailure(m);
      if !err {
        ResetAndForget(m);
      }
    }

    method ResetAndForget(m: ByotMachine)
      requires At(m, Evict)
      modifies api, m
      ensures Done() && Onward()
      ensures || Trail() == old(Trail()) + [Reset(false)]
              || Trail() == old(Trail()) + [Reset(true)] + [Abort]
              || Trail() == old(Trail()) + [Reset(true)] + [Act.Patch(old(m.Rec()).(ready := false, configSHA := ""))]
    {
      hide Ran, AfterRead, ToPut, DecidePc, EnsurePc, Intended, AfterPatch;
      var err := api.ResetMachine(uid);
      if !err {
        ForgetAdoption(m);
      }
    }

    method CommitFailure(m: ByotMachine) returns (err: bool)
      requires At(m, FailMark)
      modifies api, m
      ensures Onward()
      ensures err ==> Done()
      ensures !err ==> At(m, Evict)
      ensures m.Rec() == old(m.Rec()).(upgrade := Failed, attemptGeneration := old(m.generation))
      ensures Trail() == old(Trail()) + [if err then Abort else Act.Patch(m.Rec())]
    {
      hide Ran, AfterRead, ToPut, DecidePc, EnsurePc;
      MarkFailed(m);
      err := Patch(m);
    }

    method ForgetAdoption(m: ByotMachine)
      requires At(m, FailClear)
      modifies api, m
      ensures Done() && Onward()
      ensures Trail() == old(Trail()) + [Abort] ||
              Trail() == old(Trail()) + [Act.Patch(old(m.Rec()).(ready := false, configSHA := ""))]
    {
      hide Ran;
      m.ready := false;
      m.configSHA := "";
      var err := Patch(m);
    }

    method UpgradeInFlight(m: ByotMachine) returns (handled: bool)
      requires At(m, NeedConfig(ForPoll))
      modifies api, m
      ensures Onward()
      ensures handled ==> Done()
      ensures !handled ==> At(m, Link)
      ensures FetchesAndPolls(old(Trail()), Trail(), old(m.Rec()), Spec().upgradeThreshold, handled, m.Rec())
    {
      hide Ran, Polls, AfterPatch, Intended, DecidePc, EnsurePc, ToPut, AfterRead;
      var found := api.TalosConfig(uid);
      if !found {
        return true;
      }
      ghost var live, answer;
      handled, live, answer := PollUpgrade(m);
      assert Polls(old(Trail()) + [FetchConfig(true)], Trail(), old(m.Rec()), Spec().upgradeThreshold, live, answer, handled, m.Rec());
    }

    method PollUpgrade(m: ByotMachine) returns (handled: bool, ghost read: BootAnswer, ghost answer: VersionAnswer)
      requires At(m, if m.preRebootBoot == 0 then Fallback else PollBoot)
      modifies api, m
      ensures Onward()
      ensures handled ==> Done()
      ensures !handled ==> At(m, Link)
      ensures Polls(old(Trail()), Trail(), old(m.Rec()), Spec().upgradeThreshold, read, answer, handled, m.Rec())
    {
      hide Ran, ComparesBoot, ComparesTag;
      if m.preRebootBoot != 0 {
        handled, read, answer := UpgradeInFlightBootIDGate(m);
      } else {
        read := NoBoot;
        handled, answer := UpgradeInFlightVersionFallback(m);
      }
    }

    method UpgradeInFlightBootIDGate(m: ByotMachine)
      returns (handled: bool, ghost read: BootAnswer, ghost answer: VersionAnswer)
      requires At(m, PollBoot)
      modifies api, m
      ensures Onward()
      ensures handled ==> Done()
      ensures !handled ==> At(m, Link)
      ensures ComparesBoot(old(Trail()), Trail(), old(m.Rec()), Spec().upgradeThreshold, read, answer, handled, m.Rec())
    {
      hide Ran, AfterRead, ToPut, GatePc, DecidePc, EnsurePc, DispatchPc, MirrorPc, CountsFailure, ComparesTag, Completes;
      var live := api.LiveBootId(uid);
      read, answer := live, NoVersion;
      if live.NoBoot? {
        RecordUpgradeProbeFailure(m, Spec().upgradeThreshold, true);
        handled := true;
      } else if live.Unauthorized? {
        handled, answer := UpgradeInFlightVersionFallback(m);
      } else if live.id != 0 && live.id != m.preRebootBoot {
        handled, answer := CompleteRebooted(m);
      } else {
        var err := Patch(m);
        handled := true;
      }
    }

    method CompleteRebooted(m: ByotMachine) returns (handled: bool, ghost read: VersionAnswer)
      requires At(m, PollTag)
      modifies api, m
      ensures Onward()
      ensures handled ==> Done()
      ensures !handled ==> At(m, Link)
      ensures Completes(old(Trail()) + [ReadVersion(read)], Trail(), Tagged(old(m.Rec()), read), handled, m.Rec())
    {
      hide Ran, Completes, CompletedRec, AfterPatch, AfterRead, ToPut, GatePc, DecidePc, EnsurePc, DispatchPc, MirrorPc;
      var answer := api.Version(uid);
      read := answer;
      handled := CompleteTagged(m, answer);
    }

    method CompleteTagged(m: ByotMachine, answer: VersionAnswer) returns (handled: bool)
      requires At(m, Completing(ByBoot, if answer.Tag? && answer.tag != "" then answer.tag else m.talosVersion))
      modifies api, m
      ensures Onward()
      ensures handled ==> Done()
      ensures !handled ==> At(m, Link)
      ensures Completes(old(Trail()), Trail(), Tagged(old(m.Rec()), answer), handled, m.Rec())
    {
      hide Ran, Completes, CompletedRec, AfterPatch, AfterRead, ToPut, GatePc, DecidePc, EnsurePc, DispatchPc, MirrorPc, AfterVersion;
      RecordRebootTag(m, answer);
      handled := MarkUpgradeComplete(m);
    }

    method RecordRebootTag(m: ByotMachine, answer: VersionAnswer)
      modifies m
      ensures m.Rec() == Tagged(old(m.Rec()), answer)
    {
      if answer.Tag? && answer.tag != "" {
        m.talosVersion := answer.tag;
      }
    }

    method UpgradeInFlightVersionFallback(m: ByotMachine) returns (handled: bool, ghost read: VersionAnswer)
      requires At(m, Fallback)
      modifies api, m
      ensures Onward()
      ensures handled ==> Done()
      ensures !handled ==> At(m, Link)
      ensures ComparesTag(old(Trail()), Trail(), old(m.Rec()), Spec().upgradeThreshold, read, handled, m.Rec())
    {
      hide Ran, AfterRead, ToPut, GatePc, DecidePc, EnsurePc, DispatchPc, MirrorPc, CountsFailure, Intended, AfterPatch,
        Completes, Holds, ComparesTag;
      var answer := api.Version(uid);
      read := answer;
      handled := FallBack(m, answer, old(Trail()));
    }

    method FallBack(m: ByotMachine, answer: VersionAnswer, ghost before: seq<Act>) returns (handled: bool)
      requires Trail() == before + [ReadVersion(answer)]
      requires At(m, match answer
                     case NoVersion => CountFailure(true)
                     case Tag(tag) => if tag == "" || tag == m.talosVersion then HoldTag(tag) else Completing(ByTag, tag))
      modifies api, m
      ensures Onward()
      ensures handled ==> Done()
      ensures !handled ==> At(m, Link)
      ensures ComparesTag(before, Trail(), old(m.Rec()), Spec().upgradeThreshold, answer, handled, m.Rec())
    {
      hide Ran, AfterRead, ToPut, GatePc, DecidePc, EnsurePc, DispatchPc, MirrorPc, CountsFailure, Intended, AfterPatch,
        Completes, Holds, AfterVersion;
      if answer.NoVersion? {
        RecordUpgradeProbeFailure(m, Spec().upgradeThreshold, true);
        handled := true;
      } else {
        handled := CompareTag(m, answer.tag);
      }
    }

    /** Another tag than the recorded one completes the upgrade, no tag or the same holds it. */
    method CompareTag(m: ByotMachine, tag: string) returns (handled: bool)
      requires At(m, if tag == "" || tag == m.talosVersion then HoldTag(tag) else Completing(ByTag, tag))
      modifies api, m
      ensures Onward()
      ensures handled ==> Done()
      ensures !handled ==> At(m, Link)
      ensures var tagged := old(m.Rec()).(talosVersion := tag, probeFailures := 0);
              if tag == "" || tag == old(m.talosVersion) then handled && Holds(old(Trail()), Trail(), tagged)
              else Completes(old(Trail()), Trail(), tagged, handled, m.Rec())
    {
      hide Ran, AfterRead, ToPut, GatePc, DecidePc, EnsurePc, DispatchPc, MirrorPc, Completes, CompletedRec;
      var preUpgradeTag := m.talosVersion;
      RecordTag(m, tag);
      if tag == "" || tag == preUpgradeTag {
        var err := Patch(m);
        return true;
      }
      handled := MarkUpgradeComplete(m);
    }

    method RecordTag(m: ByotMachine, tag: string)
      modifies m
      ensures m.Rec() == old(m.Rec()).(talosVersion := tag, probeFailures := 0)
    {
      m.talosVersion := tag;
      m.probeFailures := 0;
    }

    /** The in-memory machine, once marked complete, is what the pending patch commits. */
    ghost predicate MayComplete(m: ByotMachine)
      reads this, api, m
    {
      api.Serves(uid) && api.ActorOf(uid).pc.Completing? && Intended(api.ActorOf(uid)) == Some(CompletedRec(m.Rec()))
    }

    method MarkUpgradeComplete(m: ByotMachine) returns (handled: bool)
      requires MayComplete(m)
      modifies api, m
      ensures Onward()
      ensures handled ==> Done()
      ensures !handled ==> At(m, Link)
      ensures Completes(old(Trail()), Trail(), old(m.Rec()), handled, m.Rec())
    {
      hide Ran, AfterRead, ToPut, GatePc, DecidePc, EnsurePc, DispatchPc, MirrorPc, Intended, Mirrors;
      MarkComplete(m);
      var err := Patch(m);
      if err {
        return true;
      }
      ghost var seen;
      handled, seen := SyncHostTalosVersion(m);
      assert Mirrors(old(Trail()) + [Act.Patch(m.Rec())], Trail(), m.Rec(), seen, handled);
    }

    method MarkComplete(m: ByotMachine)
      modifies m
      ensures m.Rec() == old(m.Rec()).(upgrade := NoUpgrade, preRebootBoot := 0, appliedRef := m.desired,
                                       attemptGeneration := m.generation)
    {
      m.upgrade := NoUpgrade;
      m.preRebootBoot := 0;
      m.appliedRef := m.desired;
      m.attemptGeneration := m.generation;
    }

    method SyncHostTalosVersion(m: ByotMachine) returns (err: bool, ghost read: Seen)
      requires At(m, MirrorPc(m.Rec()))
      modifies api
      ensures Onward()
      ensures err ==> Done()
      ensures !err ==> At(m, Link)
      ensures Mirrors(old(Trail()), Trail(), m.Rec(), read, err)
    {
      hide Ran, Intended, AfterPatch, DecidePc, EnsurePc, DispatchPc, ToPut;
      read := Missing;
      if m.resolvedHost.None? || m.talosVersion == "" {
        return false, read;
      }
      err, read := MirrorResolved(m);
    }

    method MirrorResolved(m: ByotMachine) returns (err: bool, ghost read: Seen)
      requires At(m, MirrorGet) && m.resolvedHost.Some? && m.talosVersion != ""
      modifies api
      ensures Onward()
      ensures err ==> Done()
      ensures !err ==> At(m, Link)
      ensures Mirrors(old(Trail()), Trail(), m.Rec(), read, err)
    {
      hide Ran, Puts, Intended, AfterPatch, DecidePc, EnsurePc, DispatchPc, ToPut, GatePc, LeastCandidate, ClaimableBy;
      var seen;
      err, seen := api.Get(uid);
      read := seen;
      if !err && seen.Version? {
        err := MirrorSeen(m, seen.rec, seen.at);
      }
    }

    method MirrorSeen(m: ByotMachine, rec: HostRec, ghost at: nat) returns (err: bool)
      requires At(m, if rec.talosVersion == m.talosVersion then Link else MirrorPut(at, rec))
      modifies api
      ensures Onward()
      ensures err ==> Done()
      ensures !err ==> At(m, Link)
      ensures if rec.talosVersion == m.talosVersion then !err && Trail() == old(Trail())
              else Puts(old(Trail()), Trail(), rec.(talosVersion := m.talosVersion), err)
    {
      hide Ran, Puts, Intended, AfterPatch, DecidePc, EnsurePc, DispatchPc, ToPut, AfterRead;
      if rec.talosVersion == m.talosVersion {
        return false;
      }
      err := MirrorVersion(m, rec, at);
    }

    method MirrorVersion(m: ByotMachine, rec: HostRec, ghost at: nat) returns (err: bool)
      requires At(m, MirrorPut(at, rec))
      modifies api
      ensures Onward()
      ensures err ==> Done()
      ensures !err ==> At(m, Link)
      ensures Puts(old(Trail()), Trail(), rec.(talosVersion := m.talosVersion), err)
    {
      hide Ran;
      var host := new ByotHost(rec);
      host.talosVersion := m.talosVersion;
      err := api.UpdateStatus(uid, host.Rec());
    }

    // ---------- Link ----------

    method LinkNode(m: ByotMachine)
      requires At(m, Link)
      modifies api, m
      ensures Done() && Onward()
      ensures LinksNode(old(Trail()), Trail(), old(m.Rec()))
    {
      hide Ran;
      var patched := api.PatchNode(uid);
      if !patched {
        return;
      }
      m.nodeUpdated := true;
      var err := Patch(m);
    }
  }
}
