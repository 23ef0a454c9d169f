/** Every path a reconcile of a machine may take, method by method and in terms of the fields of
    the records alone: the acts that are appended to those before, and why a method returns early.
    err and handled are the returned values; a call that fails is an Abort, or the act itself
    with a negative outcome. */
module ReconcilePaths {
  import opened Common
  import opened Records
  import opened MachineProtocol

  /** patchHelper.Patch */
  predicate Saves(before: seq<Act>, after: seq<Act>, rec: MachineRec, err: bool) {
    after == before + [if err then Abort else Act.Patch(rec)]
  }

  /** A versioned status update of a host. */
  predicate Puts(before: seq<Act>, after: seq<Act>, rec: HostRec, err: bool) {
    || after == before + [PutStatus(rec, !err)]
    || (err && after == before + [Abort])
  }

  // ---------- Claim ----------

  /** verifyExistingClaim: the claim is kept exactly when the version read carries it. */
  predicate Verifies(before: seq<Act>, after: seq<Act>, u: Uid, m: MachineRec, seen: Seen, err: bool, kept: bool, m': MachineRec) {
    var read := before + [ReadHost(seen)];
    || (err && after == before + [Abort])
    || (if seen.Version? && seen.rec.claimRef == Some(u) then
          && (err || kept) && m' == m.(resolvedIP := seen.rec.publicIP)
          && (if m.resolvedIP == seen.rec.publicIP then !err && after == read else Saves(read, after, m', err))
        else (err || !kept) && m' == m.(resolvedHost := None, resolvedIP := "") && Saves(read, after, m', err))
  }

  /** resolveHostRef: the named host is admitted exactly when this machine may claim the version
      read. */
  predicate ReadsNamed(before: seq<Act>, after: seq<Act>, u: Uid, name: HostName, seen: Seen, err: bool, host: Option<Listed>) {
    if err then after == before + [Abort]
    else
      && after == before + [ReadHost(seen)]
      && host == if seen.Version? && seen.rec.phase == Available && seen.rec.probed && seen.rec.claimRef in {None, Some(u)}
                 then Some(Listed(name, seen.at, seen.rec)) else None
  }

  /** selectClaimCandidate */
  predicate Lists(before: seq<Act>, after: seq<Act>, u: Uid, want: string, items: seq<Listed>, err: bool, host: Option<Listed>) {
    if err then after == before + [Abort] else after == before + [ListHosts(items)] && host == LeastCandidate(items, u, want)
  }

  /** resolveClaimCandidate */
  ghost predicate Resolves(before: seq<Act>, after: seq<Act>, u: Uid, spec: MachineSpec, err: bool, host: Option<Listed>) {
    if spec.hostRef.Some? then exists seen :: ReadsNamed(before, after, u, spec.hostRef.value, seen, err, host)
    else exists items :: Lists(before, after, u, spec.failureDomain, items, err, host)
  }

  /** claimCAS: exactly the claimed record, on the version read just before. */
  predicate PutsClaim(before: seq<Act>, after: seq<Act>, u: Uid, seen: Seen, err: bool) {
    var read := before + [ReadHost(seen)];
    || (err && after == before + [Abort])
    || (if seen.Version? && seen.rec.claimRef in {None, Some(u)} then
          Takes(read, after, seen.rec.(claimRef := Some(u), phase := Phase.Claimed), err)
        else err && after == read)
  }

  predicate Takes(before: seq<Act>, after: seq<Act>, claimed: HostRec, err: bool) {
    var put := before + [PutStatus(claimed, true)];
    || (err && Puts(before, after, claimed, true))
    || (if claimed.finalizer then !err && after == put
        else after == put + [PutFinalizer(!err)] || (err && after == put + [Abort]))
  }

  /** The rest of claimHost, for a machine without a claim. */
  ghost predicate ClaimsAnother(before: seq<Act>, after: seq<Act>, u: Uid, spec: MachineSpec, m: MachineRec, handled: bool, m': MachineRec) {
    exists mid, err, host ::
      && Resolves(before, mid, u, spec, err, host)
      && if err || host.None? then handled && after == mid else ClaimsResolved(mid, after, u, host.value, m, handled, m')
  }

  ghost predicate ClaimsResolved(before: seq<Act>, after: seq<Act>, u: Uid, host: Listed, m: MachineRec, handled: bool, m': MachineRec) {
    exists mid, seen, err ::
      && PutsClaim(before, mid, u, seen, err)
      && if err then handled && after == mid
         else m' == m.(resolvedHost := Some(host.name), resolvedIP := host.rec.publicIP) && Saves(mid, after, m', handled)
  }

  /** claimHost: a claim that is verified, or a new one that is recorded. */
  ghost predicate ClaimsHost(before: seq<Act>, after: seq<Act>, u: Uid, spec: MachineSpec, m: MachineRec, handled: bool, m': MachineRec) {
    if m.resolvedHost.None? then ClaimsAnother(before, after, u, spec, m, handled, m')
    else
      exists mid, seen, err, kept, checked ::
        && Verifies(before, mid, u, m, seen, err, kept, checked)
        && if err || kept then handled == err && after == mid && m' == checked
           else ClaimsAnother(mid, after, u, spec, checked, handled, m')
  }

  // ---------- Release ----------

  /** releaseHost, of a version that was read: exactly the released record, to Available when
      maintenance answers and to Releasing after a reset otherwise. */
  predicate PutsRelease(before: seq<Act>, after: seq<Act>, seen: HostRec, err: bool) {
    || Puts(before + [ProbeMaintenance(true)], after, seen.(phase := Available, claimRef := None), err)
    || (err && after == before + [ProbeMaintenance(false)] + [Reset(false)])
    || Puts(before + [ProbeMaintenance(false)] + [Reset(true)], after, seen.(phase := Releasing, claimRef := None), err)
  }

  predicate ReleasesSeen(before: seq<Act>, after: seq<Act>, seen: Seen, err: bool) {
    var read := before + [ReadHost(seen)];
    || (err && after == before + [Abort])
    || (if seen.Missing? then !err && after == read else PutsRelease(read, after, seen.rec, err))
  }

  ghost predicate Releases(before: seq<Act>, after: seq<Act>, m: MachineRec, err: bool) {
    if m.resolvedHost.None? then !err && after == before else exists seen :: ReleasesSeen(before, after, seen, err)
  }

  /** reconcileDelete: the finalizer goes last. */
  ghost predicate Deletes(before: seq<Act>, after: seq<Act>, m: MachineRec) {
    exists mid, err ::
      && Releases(before, mid, m, err)
      && if err then after == mid
         else after in {mid + [Abort], mid + [RemoveFinalizer(false)], mid + [RemoveFinalizer(true)]}
  }

  // ---------- Adoption ----------

  /** preflightForeignMachine: waits without credentials, and when they are accepted. */
  predicate ProbesForeign(before: seq<Act>, after: seq<Act>, spec: MachineSpec, wait: bool) {
    if spec.talosRef.None? then wait && after == before
    else || (wait && after == before + [FetchConfig(false)])
         || after == before + [FetchConfig(true)] + [ProbeBundle(ReferencedBundle, wait)]
  }

  predicate ProbesBundle(before: seq<Act>, after: seq<Act>, spec: MachineSpec, wait: bool, auth: Auth) {
    var ready := before + [FetchConfig(true)];
    || (wait && after == before + [FetchConfig(false)])
    || (!wait && auth == ClusterBundle && after == ready + [ProbeBundle(ClusterBundle, true)])
    || (auth == ReferencedBundle && ProbesForeign(ready + [ProbeBundle(ClusterBundle, false)], after, spec, wait))
  }

  /** preflightJoin: which answers authorise which apply. */
  predicate Joins(before: seq<Act>, after: seq<Act>, spec: MachineSpec, wait: bool, auth: Auth) {
    || (!wait && auth == Insecure && after == before + [ProbeMaintenance(true)])
    || ProbesBundle(before + [ProbeMaintenance(false)], after, spec, wait, auth)
  }

  /** resolveApplyAuth: an adopted machine is only applied to with the cluster's bundle. */
  predicate Authorises(before: seq<Act>, after: seq<Act>, spec: MachineSpec, m: MachineRec, wait: bool, auth: Auth) {
    if m.ready then auth == ClusterBundle && after == before + [FetchConfig(!wait)]
    else Joins(before, after, spec, wait, auth)
  }

  /** The apply; only a worker that has not been adopted waits for the control plane. */
  predicate GatesAndApplies(before: seq<Act>, after: seq<Act>, spec: MachineSpec, m: MachineRec, tag: string, err: bool) {
    if spec.worker && !m.ready then
      || (err && after == before + [CheckControlPlane(false)])
      || after == before + [CheckControlPlane(true)] + [ApplyConfig(!err, tag)]
    else after == before + [ApplyConfig(!err, tag)]
  }

  ghost predicate Applies(before: seq<Act>, after: seq<Act>, spec: MachineSpec, m: MachineRec, err: bool) {
    exists mid, wait, auth ::
      && Authorises(before, mid, spec, m, wait, auth)
      && if wait then err && after == mid else exists tag :: GatesAndApplies(mid, after, spec, m, tag, err)
  }

  /** applyAndMarkAdopted: the adoption is committed after the apply, with the hash applied. */
  ghost predicate AppliesAndAdopts(before: seq<Act>, after: seq<Act>, spec: MachineSpec, m: MachineRec, hash: string) {
    exists mid, err ::
      && Applies(before, mid, spec, m, err)
      && if err then after == mid
         else
           var adopted := m.(providerID := "byot://" + m.resolvedIP, ready := true, configSHA := hash);
           after == mid + [Abort] || RunsAdopted(mid + [Act.Patch(adopted)], after, spec, adopted)
  }

  /** reconcileAdopted: the upgrade, and then the link unless that handled it. */
  ghost predicate RunsAdopted(before: seq<Act>, after: seq<Act>, spec: MachineSpec, m: MachineRec) {
    exists mid, handled, m' ::
      && Upgrades(before, mid, spec, m, handled, m')
      && if handled then after == mid else LinksNode(mid, after, m')
  }

  /** With the claim settled, a config is applied exactly when the machine has not given up on an
      upgrade and is not adopted with this very hash. */
  ghost predicate AdoptsClaimed(before: seq<Act>, after: seq<Act>, spec: MachineSpec, m: MachineRec, hash: string) {
    if m.upgrade == Failed || (m.ready && m.providerID != "" && m.configSHA == hash) then RunsAdopted(before, after, spec, m)
    else AppliesAndAdopts(before, after, spec, m, hash)
  }

  /** adopt */
  ghost predicate Adopts(before: seq<Act>, after: seq<Act>, u: Uid, spec: MachineSpec, m: MachineRec, hash: string) {
    || after == before + [Abort]
    || (exists mid, handled, m' ::
          && ClaimsHost(before, mid, u, spec, m, handled, m')
          && if handled then after == mid else AdoptsClaimed(mid, after, spec, m', hash))
  }

  /** One reconcile. */
  ghost predicate IsReconcile(after: seq<Act>, u: Uid, spec: MachineSpec, hash: string) {
    || (exists m: MachineRec :: !m.deleting && m.finalizer && Adopts([Start(m, hash)], after, u, spec, m, hash))
    || (exists m: MachineRec :: m.deleting && m.finalizer && Deletes([StartDelete(m)], after, m))
  }

  // ---------- Upgrade ----------

  /** finalizeUpgradeFailure */
  predicate Evicts(before: seq<Act>, after: seq<Act>, m: MachineRec) {
    var failed := m.(upgrade := Failed, attemptGeneration := m.generation);
    || after == before + [Abort]
    || after == before + [Act.Patch(failed)] + [Reset(false)]
    || after == before + [Act.Patch(failed)] + [Reset(true)] + [Abort]
    || after == before + [Act.Patch(failed)] + [Reset(true)] + [Act.Patch(failed.(ready := false, configSHA := ""))]
  }

  /** recordUpgradeProbeFailure: the count first, then, from the threshold on, the failure. */
  predicate CountsFailure(before: seq<Act>, after: seq<Act>, m: MachineRec, threshold: nat, reset: bool) {
    var counted := m.(probeFailures := m.probeFailures + 1);
    var recorded := before + [Act.Patch(counted)];
    || after == before + [Abort]
    || (if m.probeFailures + 1 < threshold then after == recorded
        else if reset then Evicts(recorded, after, counted)
        else after in {recorded + [Abort],
                       recorded + [Act.Patch(counted.(upgrade := Failed, attemptGeneration := m.generation))]})
  }

  function WrittenAhead(m: MachineRec, tag: string): MachineRec {
    m.(talosVersion := tag, probeFailures := 0, upgrade := InFlight, attemptGeneration := m.generation, preRebootBoot := 0)
  }

  /** upgradeMachine and what follows it; m is the record written ahead. */
  ghost predicate Issues(before: seq<Act>, after: seq<Act>, m: MachineRec) {
    || (exists answer: InstallAnswer :: !answer.Done? && Evicts(before + [Install(answer)], after, m))
    || (exists answer: InstallAnswer, id, done :: answer.Done? && Stashes(before, after, m, answer, id, done))
  }

  predicate Stashes(before: seq<Act>, after: seq<Act>, m: MachineRec, answer: InstallAnswer, id: BootId, done: bool) {
    var issued := before + [Install(answer)] + [CaptureBoot(id)] + [Reboot(done)];
    after == issued + [Abort] || after == issued + [Act.Patch(m.(preRebootBoot := id))]
  }

  ghost predicate IssuesAfter(before: seq<Act>, after: seq<Act>, m: MachineRec) {
    after == before + [Abort] || Issues(before + [Act.Patch(m)], after, m)
  }

  /** upgradeProbeAndIssue: nothing is issued before InFlight is committed. */
  ghost predicate ProbesAndIssues(before: seq<Act>, after: seq<Act>, m: MachineRec, threshold: nat) {
    var ready := before + [FetchConfig(true)];
    || after == before + [FetchConfig(false)]
    || CountsFailure(ready + [ReadVersion(NoVersion)], after, m, threshold, false)
    || (exists tag :: IssuesAfter(ready + [ReadVersion(Tag(tag))], after, WrittenAhead(m, tag)))
  }

  /** syncHostTalosVersion: a versioned write of the version read, unless that shows the
      machine's version already. */
  predicate Mirrors(before: seq<Act>, after: seq<Act>, m: MachineRec, seen: Seen, err: bool) {
    var read := before + [ReadHost(seen)];
    if m.resolvedHost.None? || m.talosVersion == "" then !err && after == before
    else || (err && after == before + [Abort])
         || (if seen.Missing? || seen.rec.talosVersion == m.talosVersion then !err && after == read
             else Puts(read, after, seen.rec.(talosVersion := m.talosVersion), err))
  }

  /** markUpgradeComplete: the commit, then the mirror. */
  ghost predicate Completes(before: seq<Act>, after: seq<Act>, m: MachineRec, handled: bool, m': MachineRec) {
    && m' == m.(upgrade := NoUpgrade, preRebootBoot := 0, appliedRef := m.desired, attemptGeneration := m.generation)
    && (|| (handled && after == before + [Abort])
        || (exists seen :: Mirrors(before + [Act.Patch(m')], after, m', seen, handled)))
  }

  predicate Holds(before: seq<Act>, after: seq<Act>, m: MachineRec) {
    after == before + [Abort] || after == before + [Act.Patch(m)]
  }

  /** upgradeInFlightVersionFallback: completes exactly on a tag that is not empty and not the
      one recorded. */
  ghost predicate ComparesTag(before: seq<Act>, after: seq<Act>, m: MachineRec, threshold: nat, answer: VersionAnswer,
                              handled: bool, m': MachineRec)
  {
    var read := before + [ReadVersion(answer)];
    match answer
    case NoVersion => handled && CountsFailure(read, after, m, threshold, true)
    case Tag(tag) =>
      var tagged := m.(talosVersion := tag, probeFailures := 0);
      if tag == "" || tag == m.talosVersion then handled && Holds(read, after, tagged)
      else Completes(read, after, tagged, handled, m')
  }

  function Tagged(m: MachineRec, answer: VersionAnswer): MachineRec {
    if answer.Tag? && answer.tag != "" then m.(talosVersion := answer.tag) else m
  }

  /** upgradeInFlightBootIDGate: completes exactly on another boot-id, and leaves the decision to
      the tag when it may not read one. */
  ghost predicate ComparesBoot(before: seq<Act>, after: seq<Act>, m: MachineRec, threshold: nat, live: BootAnswer,
                               answer: VersionAnswer, handled: bool, m': MachineRec)
  {
    var read := before + [ReadBoot(live)];
    match live
    case NoBoot => handled && CountsFailure(read, after, m, threshold, true)
    case Unauthorized => ComparesTag(read, after, m, threshold, answer, handled, m')
    case Boot(id) =>
      if id == 0 || id == m.preRebootBoot then handled && Holds(read, after, m)
      else Completes(read + [ReadVersion(answer)], after, Tagged(m, answer), handled, m')
  }

  /** upgradeInFlight: the boot-id gate when there is a boot-id, the version otherwise. */
  ghost predicate Polls(before: seq<Act>, after: seq<Act>, m: MachineRec, threshold: nat, live: BootAnswer,
                        answer: VersionAnswer, handled: bool, m': MachineRec)
  {
    if m.preRebootBoot != 0 then ComparesBoot(before, after, m, threshold, live, answer, handled, m')
    else ComparesTag(before, after, m, threshold, answer, handled, m')
  }

  ghost predicate FetchesAndPolls(before: seq<Act>, after: seq<Act>, m: MachineRec, threshold: nat, handled: bool, m': MachineRec) {
    || (handled && after == before + [FetchConfig(false)])
    || (exists live, answer :: Polls(before + [FetchConfig(true)], after, m, threshold, live, answer, handled, m'))
  }

  /** What an upgrade does from each of its states. */
  ghost predicate Dispatches(before: seq<Act>, after: seq<Act>, spec: MachineSpec, m: MachineRec, handled: bool, m': MachineRec) {
    match m.upgrade
    case Failed => handled && after == before
    case InFlight => FetchesAndPolls(before, after, m, spec.upgradeThreshold, handled, m')
    case NoUpgrade =>
      if m.appliedRef == m.desired && m.attemptGeneration == m.generation then Completes(before, after, m, handled, m')
      else handled && ProbesAndIssues(before, after, m, spec.versionThreshold)
  }

  /** ensureTalosVersion: nothing to do, and not handled, exactly without a desired version or an
      adopted machine; a failure of another generation is retriggered first. */
  ghost predicate Upgrades(before: seq<Act>, after: seq<Act>, spec: MachineSpec, m: MachineRec, handled: bool, m': MachineRec) {
    if m.desired == "" || !m.ready then !handled && after == before && m' == m
    else if m.upgrade == Failed && m.generation != m.attemptGeneration then
      var again := m.(upgrade := NoUpgrade, probeFailures := 0);
      || (handled && after == before + [Abort])
      || Dispatches(before + [Act.Patch(again)], after, spec, again, handled, m')
    else Dispatches(before, after, spec, m, handled, m')
  }

  // ---------- Link ----------

  /** linkNode: nothing for a linked node or without a provider id; nodeUpdated is committed only
      after the node was patched. */
  predicate LinksNode(before: seq<Act>, after: seq<Act>, m: MachineRec) {
    || after == before + [Act.LinkNode(false)]
    || (&& !m.nodeUpdated && m.providerID != ""
        && after in {before + [Act.LinkNode(true)] + [Abort],
                     before + [Act.LinkNode(true)] + [Act.Patch(m.(nodeUpdated := true))]})
  }
}
