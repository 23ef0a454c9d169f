/** The ByotHost reconciler. Its methods assign the fields of the in-memory host; what they
    send is proved to be what the lifecycle of one host prescribes, cut short at most by a
    crash or an API error. */
module HostReconciler {
  import opened Common
  import opened Records
  import opened Discovery
  import opened HostProtocol
  import opened World
  import opened Reconciles
  import opened Lifecycle
  import opened Objects
  import opened Cluster

  /** acts were performed, all of them or some and then a crash. */
  predicate CutShort(before: seq<HostAct>, after: seq<HostAct>, acts: seq<HostAct>) {
    after == before + acts || exists k :: 0 <= k <= |acts| && after == before + acts[..k] + [Crash]
  }

  /** The patch of rec, or a crash instead. */
  predicate Sent(before: seq<HostAct>, after: seq<HostAct>, rec: HostRec) {
    after == before + [PatchSelf(rec)] || after == before + [Crash]
  }

  lemma SentLast(before: seq<HostAct>, answers: seq<HostAct>, after: seq<HostAct>, rec: HostRec)
    requires Sent(before + answers, after, rec)
    ensures CutShort(before, after, answers + [PatchSelf(rec)])
  {
    var acts := answers + [PatchSelf(rec)];
    assert before + acts == before + answers + [PatchSelf(rec)];
    assert acts[..|answers|] == answers;
  }

  lemma CutAfter(before: seq<HostAct>, first: seq<HostAct>, after: seq<HostAct>, acts: seq<HostAct>)
    requires CutShort(before + first, after, acts)
    ensures CutShort(before, after, first + acts)
  {
    var all := first + acts;
    assert before + all == before + first + acts;
    if after != before + all {
      var k :| 0 <= k <= |acts| && after == before + first + acts[..k] + [Crash];
      assert all[..|first| + k] == first + acts[..k];
      assert before + all[..|first| + k] + [Crash] == before + first + acts[..k] + [Crash];
    }
  }

  /** One reconcile of a host read as version at of its record. */
  ghost predicate Reconciled(trail: seq<HostAct>, at: nat, rec: HostRec, threshold: nat) {
    var read := [ReadSelf(at, rec)];
    if rec.deleting then
      if rec.finalizer && rec.claimRef.None? then
        trail == read + [Crash] || exists ok :: trail == read + [DropFinalizer(ok)]
      else trail == read
    else
      exists probe, found ::
        CutShort(read, trail, (if rec.finalizer then [] else [EnsureFinalizer]) +
                              TendActs(rec.(finalizer := true), threshold, probe, found))
  }

  class ByotHostReconciler {
    const api: ApiServer
    const name: HostName

    constructor (api: ApiServer, name: HostName)
      ensures this.api == api && this.name == name
    {
      this.api := api;
      this.name := name;
    }

    /** The reconcile is at this point, with host its in-memory copy, not yet changed. */
    ghost predicate At(host: ByotHost, pc: HostPc)
      reads this, api, host
    {
      api.Tends(name) && api.HostActorOf(name).pc == pc && api.HostActorOf(name).base == host.Rec()
    }

    /** The in-memory host is what this report patches. */
    ghost predicate Patches(host: ByotHost, report: Report)
      reads this, api, host
    {
      && api.Tends(name) && api.HostActorOf(name).pc == HostPc.Report(report)
      && host.Rec() == Reported(api.HostActorOf(name).base, report, api.Threshold(name))
    }

    /** The reconcile is over. */
    ghost predicate Done()
      reads this, api
    {
      api.Tends(name) && api.HostActorOf(name).pc.HostIdle?
    }

    ghost function Trail(): seq<HostAct>
      reads this, api
    {
      api.HostTrail(name)
    }

    ghost function Threshold(): nat
      requires api.Tends(name)
      reads this, api
    {
      api.Threshold(name)
    }

    /** Reads some version of the record and does all that the lifecycle prescribes for it,
        cut short at most by a crash; or finds no record any more and does nothing. */
    method Reconcile()
      requires Done()
      modifies api
      ensures Done() && Threshold() == old(Threshold()) && old(api.log) <= api.log
      ensures (Trail() == old(Trail()) && api.w.hosts[name].gone) ||
              exists at, rec :: Reconciled(Trail(), at, rec, Threshold())
    {
      hide Ran, TendActs, CutShort;
      var rec := api.GetHost(name);
      if rec.None? {
        return;
      }
      var host := new ByotHost(rec.value);
      ghost var read := host.Rec();
      ghost var first := Trail();
      ghost var at :| first == [ReadSelf(at, read)];
      if host.deleting {
        ReconcileDelete(host);
        assert Reconciled(Trail(), at, read, Threshold());
        return;
      }
      if !host.finalizer {
        var err := api.AddHostFinalizer(name);
        if err {
          Unfinalized(at, read, Trail(), Threshold());
          return;
        }
        host.finalizer := true;
      }
      ghost var trail := Trail();
      assert host.Rec() == read.(finalizer := true);
      ReconcileHost(host);
      Attended(at, read, trail, Trail(), Threshold());
    }

    method ReconcileDelete(host: ByotHost)
      requires host.deleting
      requires At(host, if host.finalizer && host.claimRef.None? then Removing else HostIdle)
      modifies api
      ensures Done() && Threshold() == old(Threshold()) && old(api.log) <= api.log
      ensures if host.finalizer && host.claimRef.None? then
                Trail() == old(Trail()) + [Crash] || exists ok :: Trail() == old(Trail()) + [DropFinalizer(ok)]
              else Trail() == old(Trail())
    {
      hide Ran;
      if !host.finalizer {
        return;
      }
      if host.claimRef.Some? {
        return;
      }
      var err := api.RemoveHostFinalizer(name);
    }

    method ReconcileHost(host: ByotHost)
      requires At(host, PhasePc(host.phase))
      modifies api, host
      ensures Done() && Threshold() == old(Threshold()) && old(api.log) <= api.log
      ensures exists probe, found ::
                CutShort(old(Trail()), Trail(), TendActs(old(host.Rec()), Threshold(), probe, found))
    {
      hide Ran, CutShort, Reported;
      match host.phase
      case Unset => ReconcileProbing(host);
      case Probing => ReconcileProbing(host);
      case Available => ReconcileAvailable(host);
      case Unavailable => ReconcileUnavailable(host);
      case Claimed =>
        assert TendActs(host.Rec(), Threshold(), false, None) == [];
        NoActs(Trail());
      case Releasing => ReconcileReleasing(host);
    }

    method ReconcileProbing(host: ByotHost)
      requires At(host, Discover) && (host.phase == Unset || host.phase == Probing)
      modifies api, host
      ensures Done() && Threshold() == old(Threshold()) && old(api.log) <= api.log
      ensures exists found :: CutShort(old(Trail()), Trail(), TendActs(old(host.Rec()), Threshold(), false, found))
    {
      hide Ran, CutShort, DiscoveryLabels;
      var result := api.DiscoverHost(name);
      if result.None? {
        RecordDiscoveryFailure(host);
      } else {
        host.Populate(result.value);
        host.ApplyDiscoveryLabels();
        Send(host, Found(result.value));
      }
      ProbingTrail(old(host.Rec()), Threshold(), result, old(Trail()), Trail());
    }

    method ReconcileAvailable(host: ByotHost)
      requires At(host, Probe) && host.phase == Available
      modifies api, host
      ensures Done() && Threshold() == old(Threshold()) && old(api.log) <= api.log
      ensures exists probe :: CutShort(old(Trail()), Trail(), TendActs(old(host.Rec()), Threshold(), probe, None))
    {
      hide Ran, CutShort, DiscoveryLabels;
      var ok := api.ProbeHost(name);
      if ok {
        host.maintenance := true;
        host.failures := 0;
        host.probed := true;
        host.ApplyDiscoveryLabels();
        Send(host, Alive);
      } else {
        RecordProbeFailure(host);
      }
      ProbedTrail(old(host.Rec()), Threshold(), ok, old(Trail()), Trail());
    }

    method ReconcileUnavailable(host: ByotHost)
      requires At(host, Probe) && host.phase == Unavailable
      modifies api, host
      ensures Done() && Threshold() == old(Threshold()) && old(api.log) <= api.log
      ensures exists probe, found :: CutShort(old(Trail()), Trail(), TendActs(old(host.Rec()), Threshold(), probe, found))
    {
      hide Ran, CutShort, DiscoveryLabels;
      var ok := api.ProbeHost(name);
      if !ok {
        host.ApplyDiscoveryLabels();
        Send(host, Waiting);
        ProbedTrail(old(host.Rec()), Threshold(), ok, old(Trail()), Trail());
        return;
      }
      var result := api.DiscoverHost(name);
      if result.None? {
        RecordDiscoveryFailure(host);
      } else {
        host.Populate(result.value);
        host.ApplyDiscoveryLabels();
        Send(host, Found(result.value));
      }
      RecoveredTrail(old(host.Rec()), Threshold(), result, old(Trail()), Trail());
    }

    method ReconcileReleasing(host: ByotHost)
      requires At(host, Probe) && host.phase == Releasing
      modifies api, host
      ensures Done() && Threshold() == old(Threshold()) && old(api.log) <= api.log
      ensures exists probe, found :: CutShort(old(Trail()), Trail(), TendActs(old(host.Rec()), Threshold(), probe, found))
    {
      hide Ran, CutShort, DiscoveryLabels;
      var ok := api.ProbeHost(name);
      if !ok {
        host.ApplyDiscoveryLabels();
        Send(host, Waiting);
        ProbedTrail(old(host.Rec()), Threshold(), ok, old(Trail()), Trail());
        return;
      }
      var result := api.DiscoverHost(name);
      if result.None? {
        RecordDiscoveryFailure(host);
      } else {
        Recover(host, result.value);
      }
      RecoveredTrail(old(host.Rec()), Threshold(), result, old(Trail()), Trail());
    }

    /** A released host is back: it is Available, and its claim reference is dropped. */
    method Recover(host: ByotHost, d: DiscoveryResult)
      requires At(host, HostPc.Report(Found(d))) && host.phase == Releasing
      modifies api, host
      ensures Done() && Threshold() == old(Threshold()) && old(api.log) <= api.log
      ensures Sent(old(Trail()), Trail(), Reported(old(host.Rec()), Found(d), Threshold()))
    {
      hide Ran, DiscoveryLabels;
      host.Populate(d);
      host.claimRef := None;
      host.ApplyDiscoveryLabels();
      Send(host, Found(d));
    }

    method RecordDiscoveryFailure(host: ByotHost)
      requires At(host, HostPc.Report(NotFound))
      modifies api, host
      ensures Done() && Threshold() == old(Threshold()) && old(api.log) <= api.log
      ensures Sent(old(Trail()), Trail(), Reported(old(host.Rec()), NotFound, Threshold()))
    {
      hide Ran, DiscoveryLabels;
      host.maintenance := false;
      host.phase := Probing;
      host.probed := false;
      host.ApplyDiscoveryLabels();
      Send(host, NotFound);
    }

    method RecordProbeFailure(host: ByotHost)
      requires At(host, HostPc.Report(Silent))
      modifies api, host
      ensures Done() && Threshold() == old(Threshold()) && old(api.log) <= api.log
      ensures Sent(old(Trail()), Trail(), Reported(old(host.Rec()), Silent, Threshold()))
    {
      hide Ran, DiscoveryLabels;
      host.maintenance := false;
      host.failures := host.failures + 1;
      if host.failures >= api.Threshold(name) {
        host.phase := Unavailable;
      }
      host.probed := false;
      host.ApplyDiscoveryLabels();
      Send(host, Silent);
    }

    method Send(host: ByotHost, ghost report: Report)
      requires Patches(host, report)
      modifies api
      ensures Done() && Threshold() == old(Threshold()) && old(api.log) <= api.log
      ensures Sent(old(Trail()), Trail(), Reported(old(api.HostActorOf(name).base), report, Threshold()))
    {
      hide Ran, Reported;
      var err := api.PatchHostSelf(name, host.Rec());
    }
  }

  // ---------- What the acts add up to ----------

  lemma NoActs(trail: seq<HostAct>)
    ensures CutShort(trail, trail, [])
  {
    assert trail + [] == trail;
  }

  lemma ProbingTrail(rec: HostRec, threshold: nat, found: Option<DiscoveryResult>, before: seq<HostAct>, after: seq<HostAct>)
    requires rec.phase == Unset || rec.phase == Probing
    requires Sent(before + [RunDiscovery(found)], after, Reported(rec, if found.Some? then Found(found.value) else NotFound, threshold))
    ensures CutShort(before, after, TendActs(rec, threshold, false, found))
  {
    hide Reported;
    var patched := Reported(rec, if found.Some? then Found(found.value) else NotFound, threshold);
    SentLast(before, [RunDiscovery(found)], after, patched);
    assert TendActs(rec, threshold, false, found) == [RunDiscovery(found)] + [PatchSelf(patched)];
  }

  lemma ProbedTrail(rec: HostRec, threshold: nat, probe: bool, before: seq<HostAct>, after: seq<HostAct>)
    requires rec.phase == Available || (rec.phase in {Unavailable, Releasing} && !probe)
    requires Sent(before + [ProbeLiveness(probe)], after, Reported(rec, ReportOf(rec.phase, probe, None).value, threshold))
    ensures CutShort(before, after, TendActs(rec, threshold, probe, None))
  {
    hide Reported;
    var patched := Reported(rec, ReportOf(rec.phase, probe, None).value, threshold);
    SentLast(before, [ProbeLiveness(probe)], after, patched);
    assert TendActs(rec, threshold, probe, None) == [ProbeLiveness(probe)] + [PatchSelf(patched)];
  }

  lemma RecoveredTrail(rec: HostRec, threshold: nat, found: Option<DiscoveryResult>, before: seq<HostAct>, after: seq<HostAct>)
    requires rec.phase == Unavailable || rec.phase == Releasing
    requires Sent(before + [ProbeLiveness(true)] + [RunDiscovery(found)], after,
                  Reported(rec, if found.Some? then Found(found.value) else NotFound, threshold))
    ensures CutShort(before, after, TendActs(rec, threshold, true, found))
  {
    hide Reported;
    var patched := Reported(rec, if found.Some? then Found(found.value) else NotFound, threshold);
    var answers := [ProbeLiveness(true)] + [RunDiscovery(found)];
    assert before + answers == before + [ProbeLiveness(true)] + [RunDiscovery(found)];
    SentLast(before, answers, after, patched);
    assert TendActs(rec, threshold, true, found) == answers + [PatchSelf(patched)];
  }

  lemma Unfinalized(at: nat, rec: HostRec, trail: seq<HostAct>, threshold: nat)
    requires trail == [ReadSelf(at, rec)] + [Crash] && !rec.finalizer && !rec.deleting
    ensures Reconciled(trail, at, rec, threshold)
  {
    hide TendActs;
    var acts := [EnsureFinalizer] + TendActs(rec.(finalizer := true), threshold, false, None);
    assert [ReadSelf(at, rec)] + acts[..0] + [Crash] == trail;
    assert CutShort([ReadSelf(at, rec)], trail, acts);
  }

  lemma Attended(at: nat, rec: HostRec, before: seq<HostAct>, after: seq<HostAct>, threshold: nat)
    requires !rec.deleting
    requires before == if rec.finalizer then [ReadSelf(at, rec)] else [ReadSelf(at, rec)] + [EnsureFinalizer]
    requires exists probe, found :: CutShort(before, after, TendActs(rec.(finalizer := true), threshold, probe, found))
    ensures Reconciled(after, at, rec, threshold)
  {
    hide TendActs, CutShort;
    assert [ReadSelf(at, rec)] + [] == [ReadSelf(at, rec)];
    var probe, found :| CutShort(before, after, TendActs(rec.(finalizer := true), threshold, probe, found));
    CutAfter([ReadSelf(at, rec)], if rec.finalizer then [] else [EnsureFinalizer], after,
             TendActs(rec.(finalizer := true), threshold, probe, found));
  }
}
