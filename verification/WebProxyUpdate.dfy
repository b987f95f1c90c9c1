/** The web-proxy part of a workspace update (internal/workspace/update.go): claim the new
    alias, do the other changes, write route and alias to the pod in one patch, and give
    back whatever claim is no longer needed. The update runs under the workspace lock. */
module WebProxyUpdate {
  import opened Prelude
  import opened Runs
  import opened ApiServer
  import opened AliasProtocol
  import opened AliasClaims

  datatype UpdateOptions = UpdateOptions(changeResources: bool, changeNetwork: bool,
                                         replaceWebProxy: bool, webProxyPort: int,
                                         changeWebProxyAlias: bool, webProxyAlias: string)

  datatype UpdateError = WorkspaceNotFound | NotClaimed(error: ClaimError) | ApiError | StepFailed

  /** A label on the pod is backed by a claim of this workspace and by a route. */
  predicate Safe(w: World, workspace: string, canonicalId: string) {
    workspace in w.pods && w.pods[workspace].alias != "" ==>
      && ClaimName(w.pods[workspace].organization, w.pods[workspace].alias) in Mine(w, canonicalId)
      && w.pods[workspace].port.Some?
  }

  ghost predicate SafeBetween(run: Run, i: nat, j: nat, workspace: string, canonicalId: string) {
    j < |run.worlds| && forall m :: i <= m <= j ==> Safe(run.worlds[m], workspace, canonicalId)
  }

  function ClaimOf(pod: Pod): string {
    if pod.alias == "" then "" else ClaimName(pod.organization, pod.alias)
  }

  function NonEmpty(names: set<string>): set<string> {
    names - {""}
  }

  /** The workspace holds exactly the claim for the label on its pod. */
  predicate HoldsItsLabel(w: World, workspace: string, canonicalId: string) {
    workspace in w.pods ==> Mine(w, canonicalId).Keys == NonEmpty({ClaimOf(w.pods[workspace])})
  }

  predicate SamePod(before: World, after: World, workspace: string) {
    workspace in after.pods ==> workspace in before.pods && after.pods[workspace] == before.pods[workspace]
  }

  predicate ClearsRoute(opts: UpdateOptions) {
    opts.replaceWebProxy && opts.webProxyPort == 0
  }

  /** The patch commit sends. */
  function PatchFor(opts: UpdateOptions): PodPatch {
    PodPatch(if !opts.replaceWebProxy then None
             else if opts.webProxyPort > 0 then Some(Some(opts.webProxyPort)) else Some(None),
             if opts.changeWebProxyAlias then Some(opts.webProxyAlias)
             else if ClearsRoute(opts) then Some("") else None)
  }

  predicate HasRouteAfter(pod: Pod, opts: UpdateOptions) {
    if opts.replaceWebProxy then opts.webProxyPort > 0 else pod.port.Some?
  }

  /** What prepare lets through: an alias is set only with a route. */
  predicate Accepted(pod: Pod, opts: UpdateOptions) {
    opts.changeWebProxyAlias && opts.webProxyAlias != "" ==> HasRouteAfter(pod, opts)
  }

  /** The patch leaves a label without a route for exactly one kind of accepted update: a
      negative port, on a labelled pod, with the alias left alone. */
  lemma LabelKeepsRouteIffPortNotNegative(pod: Pod, opts: UpdateOptions)
    requires pod.alias != "" ==> pod.port.Some?
    requires Accepted(pod, opts)
    ensures (Patched(pod, PatchFor(opts)).alias != "" ==> Patched(pod, PatchFor(opts)).port.Some?)
       <==> !(opts.replaceWebProxy && opts.webProxyPort < 0 && !opts.changeWebProxyAlias && pod.alias != "")
  {
  }

  /** The pod an update leaves: the route is the port asked for, none for port 0, else as it
      was; the alias is the one asked for, gone with its route, else as it was; the
      organization never changes. */
  lemma WhatAnUpdateWrites(pod: Pod, opts: UpdateOptions)
    ensures var after := Patched(pod, PatchFor(opts));
            && after.organization == pod.organization
            && (opts.replaceWebProxy && opts.webProxyPort > 0 ==> after.port == Some(opts.webProxyPort))
            && (opts.replaceWebProxy && opts.webProxyPort <= 0 ==> after.port == None)
            && (!opts.replaceWebProxy ==> after.port == pod.port)
            && (opts.changeWebProxyAlias ==> after.alias == opts.webProxyAlias)
            && (!opts.changeWebProxyAlias && opts.replaceWebProxy && opts.webProxyPort == 0 ==> after.alias == "")
            && (!opts.changeWebProxyAlias && !(opts.replaceWebProxy && opts.webProxyPort == 0) ==> after.alias == pod.alias)
  {
  }

  // ---- the three kinds of stretch an update is made of ----

  lemma SafeWhileOthersAct(run: Run, i: nat, j: nat, workspace: string, canonicalId: string)
    requires Legal(run) && OthersOnly(UnderLock(workspace, canonicalId), run, i, j)
    requires Standing(run, i, workspace, canonicalId) && Safe(run.worlds[i], workspace, canonicalId)
    ensures SafeBetween(run, i, j, workspace, canonicalId) && Standing(run, j, workspace, canonicalId)
    ensures Mine(run.worlds[j], canonicalId) == Mine(run.worlds[i], canonicalId)
    ensures SamePod(run.worlds[i], run.worlds[j], workspace)
  {
    forall m | i <= m <= j
      ensures Safe(run.worlds[m], workspace, canonicalId)
    {
      OthersKeepMine(run, i, m, workspace, canonicalId);
    }
    OthersKeepMine(run, i, j, workspace, canonicalId);
  }

  lemma SafeWhileReleasing(run: Run, i: nat, j: nat, workspace: string, canonicalId: string, keep: string)
    requires Legal(run) && ReleasesOnly(run, i, j, workspace, canonicalId, keep)
    requires Standing(run, i, workspace, canonicalId) && Safe(run.worlds[i], workspace, canonicalId)
    requires workspace in run.worlds[i].pods && run.worlds[i].pods[workspace].alias != "" ==>
               keep == ClaimOf(run.worlds[i].pods[workspace])
    ensures SafeBetween(run, i, j, workspace, canonicalId) && Standing(run, j, workspace, canonicalId)
    ensures SubMap(Mine(run.worlds[j], canonicalId), Mine(run.worlds[i], canonicalId))
    ensures keep in Mine(run.worlds[i], canonicalId) ==> keep in Mine(run.worlds[j], canonicalId)
    ensures SamePod(run.worlds[i], run.worlds[j], workspace)
  {
    forall m | i <= m <= j
      ensures Safe(run.worlds[m], workspace, canonicalId)
    {
      ReleaseKeeps(run, i, m, workspace, canonicalId, keep);
    }
    ReleaseKeeps(run, i, j, workspace, canonicalId, keep);
  }

  /** The workspace's own claim step adds one claim and takes none of its claims away. */
  lemma ClaimStepAddsOne(run: Run, k: nat, workspace: string, canonicalId: string, organization: string, alias: string)
    requires Legal(run) && k < |run.actions|
    requires Standing(run, k, workspace, canonicalId)
    requires TakesClaim(run.actions[k], organization, alias, workspace, canonicalId)
    ensures Standing(run, k + 1, workspace, canonicalId)
    ensures SubMap(Mine(run.worlds[k], canonicalId), Mine(run.worlds[k + 1], canonicalId))
    ensures Mine(run.worlds[k + 1], canonicalId).Keys
         == Mine(run.worlds[k], canonicalId).Keys + {ClaimName(organization, alias)}
    ensures run.worlds[k + 1].pods == run.worlds[k].pods
  {
    assert LegalStep(run, k);
    StandingStep(run, k, workspace, canonicalId);
    AlwaysConsistent(run, k);
    var name := ClaimName(organization, alias);
    if run.actions[k].ClaimTakenOver? {
      var seen := run.actions[k].seen;
      var g: nat, m: nat :| JudgedStale(run, g, m, k, name, seen);
      RunEvolves(run, g, k);
      RunEvolves(run, k, k);
      SameVersionSameObject(run.worlds[g].claims, run.worlds[k].claims, run.worlds[k].claims, name, seen);
      HeldByMe(run.worlds[k], workspace, canonicalId, name);
    }
  }

  lemma SafeWhileClaiming(run: Run, i: nat, j: nat, own: seq<Action>, workspace: string, canonicalId: string,
                          organization: string, alias: string)
    requires Legal(run) && j == |run.actions|
    requires |own| <= 1 && i + |own| <= j && run.actions[j - |own|..] == own
    requires OthersOnly(UnderLock(workspace, canonicalId), run, i, j - |own|)
    requires forall a <- own :: TakesClaim(a, organization, alias, workspace, canonicalId)
    requires Standing(run, i, workspace, canonicalId) && Safe(run.worlds[i], workspace, canonicalId)
    ensures SafeBetween(run, i, j, workspace, canonicalId) && Standing(run, j, workspace, canonicalId)
    ensures SubMap(Mine(run.worlds[i], canonicalId), Mine(run.worlds[j], canonicalId))
    ensures Mine(run.worlds[j], canonicalId).Keys
         == Mine(run.worlds[i], canonicalId).Keys + if own == [] then {} else {ClaimName(organization, alias)}
    ensures SamePod(run.worlds[i], run.worlds[j], workspace)
  {
    SafeWhileOthersAct(run, i, j - |own|, workspace, canonicalId);
    if own != [] {
      assert run.actions[j - 1] == own[0] && own[0] in own;
      ClaimStepAddsOne(run, j - 1, workspace, canonicalId, organization, alias);
      assert Safe(run.worlds[j], workspace, canonicalId);
    }
  }

  lemma SafeBetweenExtends(r: Run, s: Run, i: nat, j: nat, workspace: string, canonicalId: string)
    requires Extends(r, s) && SafeBetween(r, i, j, workspace, canonicalId)
    requires SafeBetween(s, j, Last(s), workspace, canonicalId) && Last(s) < |s.worlds|
    ensures SafeBetween(s, i, Last(s), workspace, canonicalId)
  {
    forall m | i <= m <= Last(s)
      ensures Safe(s.worlds[m], workspace, canonicalId)
    {
      if m <= j {
        assert r.worlds[m] == s.worlds[m];
      }
    }
  }

  lemma StandingExtends(r: Run, s: Run, k: nat, workspace: string, canonicalId: string)
    requires Extends(r, s) && Standing(r, k, workspace, canonicalId)
    ensures Standing(s, k, workspace, canonicalId)
  {
    forall name, o | Has(s.worlds[k].claims, name, o) && o.value.canonicalId == canonicalId
      ensures !LapsedBy(s, k, name, o)
    {
      if LapsedBy(s, k, name, o) {
        var m: nat :| m <= k && LapsedAt(s, m, name, o);
        assert LapsedAt(r, m, name, o);
        assert LapsedBy(r, k, name, o);
        assert false;
      }
    }
  }

  /** Everything the others can do while the workspace's lock is held. */
  ghost predicate SafeWhateverOthersDo(run: Run, workspace: string, canonicalId: string) {
    forall s :: Legal(s) && Extends(run, s) && OthersOnly(UnderLock(workspace, canonicalId), s, Last(run), Last(s))
                ==> SafeBetween(s, Last(run), Last(s), workspace, canonicalId)
  }

  /** Holding the lock with the release installed does not keep a label backed by its claim:
      it stays so in every continuation by the others exactly when the claim never stood
      stale. So an update cannot promise more than it does below. */
  lemma SafeWhateverOthersDoIff(run: Run, workspace: string, canonicalId: string, x: string)
    requires Legal(run) && Safe(run.worlds[Last(run)], workspace, canonicalId)
    requires HoldsItsLabel(run.worlds[Last(run)], workspace, canonicalId)
    requires workspace in run.worlds[Last(run)].pods && run.worlds[Last(run)].pods[workspace].alias != ""
    requires workspace in run.worlds[Last(run)].ids && run.worlds[Last(run)].ids[workspace] == canonicalId
    requires workspace in run.worlds[Last(run)].releases
    requires x in run.worlds[Last(run)].ids && x != workspace
    ensures SafeWhateverOthersDo(run, workspace, canonicalId) <==> Standing(run, Last(run), workspace, canonicalId)
  {
    var k := Last(run);
    if Standing(run, k, workspace, canonicalId) {
      forall s | Legal(s) && Extends(run, s) && OthersOnly(UnderLock(workspace, canonicalId), s, k, Last(s))
        ensures SafeBetween(s, k, Last(s), workspace, canonicalId)
      {
        StandingExtends(run, s, k, workspace, canonicalId);
        SafeWhileOthersAct(s, k, Last(s), workspace, canonicalId);
      }
    } else {
      var name, o :| Has(run.worlds[k].claims, name, o) && o.value.canonicalId == canonicalId && LapsedBy(run, k, name, o);
      assert name in Mine(run.worlds[k], canonicalId).Keys;
      LapsedLabelIsLost(run, workspace, canonicalId, x, name, o);
    }
  }

  /** After the take-over by x the label is not backed any more. */
  lemma LapsedLabelIsLost(run: Run, workspace: string, canonicalId: string, x: string, name: string, o: Object<Claim>)
    requires Legal(run) && Has(run.worlds[Last(run)].claims, name, o) && LapsedBy(run, Last(run), name, o)
    requires workspace in run.worlds[Last(run)].pods && run.worlds[Last(run)].pods[workspace].alias != ""
    requires name == ClaimOf(run.worlds[Last(run)].pods[workspace])
    requires workspace in run.worlds[Last(run)].ids && run.worlds[Last(run)].ids[workspace] == canonicalId
    requires x in run.worlds[Last(run)].ids && x != workspace
    ensures !SafeWhateverOthersDo(run, workspace, canonicalId)
  {
    var k, a := Last(run), TakeOver(run, name, o, x);
    var s := With(run, a);
    TakeOverIffLapsed(run, name, o, x);
    AlwaysConsistent(run, k);
    assert ByOthers(UnderLock(workspace, canonicalId), s.actions[k]);
    assert Extends(run, s) && OthersOnly(UnderLock(workspace, canonicalId), s, k, Last(s));
    assert s.worlds[k + 1].pods == run.worlds[k].pods;
    assert name !in Mine(s.worlds[k + 1], canonicalId);
    assert !Safe(s.worlds[k + 1], workspace, canonicalId);
  }

  // ---- the code ----

  /** The claim an accepted update leaves the workspace with. */
  function KeepOf(pod: Pod, opts: UpdateOptions): string {
    if opts.changeWebProxyAlias then
      if opts.webProxyAlias == "" then "" else ClaimName(pod.organization, opts.webProxyAlias)
    else if ClearsRoute(opts) then ""
    else ClaimOf(pod)
  }

  /** The state an update is in between its calls: since moment i every moment was safe, and
      the workspace holds at most the claims of the old and the new alias. */
  ghost predicate InFlight(cluster: Cluster, before: Run, workspace: string, canonicalId: string)
    reads cluster
  {
    && cluster.Valid() && Extends(before, cluster.run) && |before.worlds| == |before.actions| + 1
    && SafeBetween(cluster.run, Last(before), Last(cluster.run), workspace, canonicalId)
    && Standing(cluster.run, Last(cluster.run), workspace, canonicalId)
  }

  lemma InFlightChains(r: Run, s: Run, cluster: Cluster, workspace: string, canonicalId: string)
    requires Extends(r, s) && |r.worlds| == |r.actions| + 1
    requires SafeBetween(s, Last(r), Last(s), workspace, canonicalId)
    requires InFlight(cluster, s, workspace, canonicalId)
    ensures InFlight(cluster, r, workspace, canonicalId)
  {
    SafeBetweenExtends(s, cluster.run, Last(r), Last(s), workspace, canonicalId);
  }

  lemma OthersKeepFlight(r: Run, cluster: Cluster, workspace: string, canonicalId: string)
    requires cluster.Valid() && Legal(r)
    requires OthersThen(UnderLock(workspace, canonicalId), r, cluster.run, [])
    requires Standing(r, Last(r), workspace, canonicalId) && Safe(r.worlds[Last(r)], workspace, canonicalId)
    ensures InFlight(cluster, r, workspace, canonicalId)
    ensures Mine(cluster.world, canonicalId) == Mine(r.worlds[Last(r)], canonicalId)
    ensures SamePod(r.worlds[Last(r)], cluster.world, workspace)
  {
    StandingExtends(r, cluster.run, Last(r), workspace, canonicalId);
    SafeWhileOthersAct(cluster.run, Last(r), Last(cluster.run), workspace, canonicalId);
  }

  /** Since moment i others acted, then the patch was written, and from there on claims other
      than keep were released at most. */
  ghost predicate PatchThenReleases(run: Run, i: nat, workspace: string, canonicalId: string, patch: PodPatch, keep: string) {
    |run.worlds| == |run.actions| + 1 &&
    exists p: nat :: WritesAt(run, i, p, workspace, canonicalId, patch)
                     && ReleasesOnly(run, p + 1, Last(run), workspace, canonicalId, keep)
  }

  ghost predicate WritesAt(run: Run, i: nat, p: nat, workspace: string, canonicalId: string, patch: PodPatch) {
    && p < |run.actions| && p < |run.worlds| && OthersOnly(UnderLock(workspace, canonicalId), run, i, p)
    && workspace in run.worlds[p].pods
    && run.actions[p] == PodWritten(workspace, Patched(run.worlds[p].pods[workspace], patch))
  }

  lemma PatchedOnce(before: Run, mid: Run, run: Run, workspace: string, canonicalId: string, patch: PodPatch, keep: string)
    requires Legal(mid) && Legal(run) && Extends(mid, run) && Last(before) < Last(mid)
    requires workspace in mid.worlds[Last(mid) - 1].pods
    requires OthersThen(UnderLock(workspace, canonicalId), before, mid,
                        [PodWritten(workspace, Patched(mid.worlds[Last(mid) - 1].pods[workspace], patch))])
    requires ReleasesOnly(run, Last(mid), Last(run), workspace, canonicalId, keep)
    ensures PatchThenReleases(run, Last(before), workspace, canonicalId, patch, keep)
  {
    var p := Last(mid) - 1;
    assert mid.actions[p] == mid.actions[p..][0];
    assert run.worlds[p] == mid.worlds[p];
    forall k | Last(before) <= k <= p
      ensures run.actions[k] == mid.actions[k]
    {
    }
    assert WritesAt(run, Last(before), p, workspace, canonicalId, patch);
  }

  class WebProxyUpdate {
    const claims: AliasClaims
    const workspace: string
    const canonicalId: string
    const opts: UpdateOptions
    const pod: Pod
    const keep: string  // the claim held once the update is committed
    const prev: string  // the claim for the alias on the pod now

    constructor (claims: AliasClaims, workspace: string, canonicalId: string, opts: UpdateOptions, pod: Pod, keep: string)
      ensures this.claims == claims && this.workspace == workspace && this.canonicalId == canonicalId
      ensures this.opts == opts && this.pod == pod && this.keep == keep && this.prev == ClaimOf(pod)
    {
      this.claims := claims;
      this.workspace := workspace;
      this.canonicalId := canonicalId;
      this.opts := opts;
      this.pod := pod;
      this.keep := keep;
      this.prev := ClaimOf(pod);
    }

    ghost predicate Prepared()
      reads claims.cluster
    {
      && claims.cluster.Valid()
      && Standing(claims.cluster.run, Last(claims.cluster.run), workspace, canonicalId)
      && Safe(claims.cluster.world, workspace, canonicalId)
      && prev == ClaimOf(pod) && keep == KeepOf(pod, opts) && Accepted(pod, opts)
      && (opts.replaceWebProxy ==> opts.webProxyPort >= 0)
      && (workspace in claims.cluster.world.pods ==> claims.cluster.world.pods[workspace] == pod)
      && Mine(claims.cluster.world, canonicalId).Keys == NonEmpty({prev, keep})
    }

    /** Releases every claim but kept, one of the two the update deals with. */
    method ReleaseAllBut(kept: string) returns (failed: bool)
      requires claims.cluster.Valid()
      requires Standing(claims.cluster.run, Last(claims.cluster.run), workspace, canonicalId)
      requires Safe(claims.cluster.world, workspace, canonicalId)
      requires workspace in claims.cluster.world.pods && claims.cluster.world.pods[workspace].alias != "" ==>
                 kept == ClaimOf(claims.cluster.world.pods[workspace])
      requires NonEmpty({kept}) <= Mine(claims.cluster.world, canonicalId).Keys
      modifies claims.cluster
      ensures InFlight(claims.cluster, old(claims.cluster.run), workspace, canonicalId)
      ensures SubMap(Mine(claims.cluster.world, canonicalId), Mine(old(claims.cluster.world), canonicalId))
      ensures ReleasesOnly(claims.cluster.run, Last(old(claims.cluster.run)), Last(claims.cluster.run), workspace, canonicalId, kept)
      ensures !failed ==> Mine(claims.cluster.world, canonicalId).Keys == NonEmpty({kept})
      ensures claims.cluster.failed == (old(claims.cluster.failed) || failed)
      ensures SamePod(old(claims.cluster.world), claims.cluster.world, workspace)
    {
      ghost var before := claims.cluster.run;
      failed := claims.Release(workspace, canonicalId, kept);
      StandingExtends(before, claims.cluster.run, Last(before), workspace, canonicalId);
      SafeWhileReleasing(claims.cluster.run, Last(before), Last(claims.cluster.run), workspace, canonicalId, kept);
      AlwaysConsistent(claims.cluster.run, Last(claims.cluster.run));
    }

    /** Gives back a claim prepare took. */
    method Abort() returns (failed: bool)
      requires Prepared()
      modifies claims.cluster
      ensures InFlight(claims.cluster, old(claims.cluster.run), workspace, canonicalId)
      ensures SubMap(Mine(claims.cluster.world, canonicalId), Mine(old(claims.cluster.world), canonicalId))
      ensures ReleasesOnly(claims.cluster.run, Last(old(claims.cluster.run)), Last(claims.cluster.run), workspace, canonicalId, prev)
      ensures !failed ==> Mine(claims.cluster.world, canonicalId).Keys == NonEmpty({prev})
      ensures claims.cluster.failed == (old(claims.cluster.failed) || failed)
      ensures SamePod(old(claims.cluster.world), claims.cluster.world, workspace)
    {
      failed := false;
      if keep != prev {
        failed := ReleaseAllBut(prev);
      }
    }

    /** The port and alias in effect once the patch is written. */
    method InEffect() returns (port: int, alias: string)
      requires opts.replaceWebProxy ==> opts.webProxyPort >= 0
      ensures port == Patched(pod, PatchFor(opts)).port.GetOr(0) && alias == Patched(pod, PatchFor(opts)).alias
    {
      port := pod.port.GetOr(0);
      if opts.replaceWebProxy {
        port := opts.webProxyPort;
      }
      alias := pod.alias;
      if opts.changeWebProxyAlias || ClearsRoute(opts) {
        alias := if opts.changeWebProxyAlias then opts.webProxyAlias else "";
      }
    }

    /** Writes the route and the alias in one patch, then releases what is no longer held. */
    method Commit() returns (r: Result<(int, string), UpdateError>, unreleased: bool)
      requires Prepared()
      modifies claims.cluster
      ensures InFlight(claims.cluster, old(claims.cluster.run), workspace, canonicalId)
      ensures SubMap(Mine(claims.cluster.world, canonicalId), Mine(old(claims.cluster.world), canonicalId))
      ensures !unreleased ==> Mine(claims.cluster.world, canonicalId).Keys == NonEmpty({if r.Ok? then keep else prev})
      ensures r.Err? ==> SamePod(old(claims.cluster.world), claims.cluster.world, workspace)
      ensures r.Ok? && workspace in claims.cluster.world.pods ==>
                claims.cluster.world.pods[workspace] == Patched(pod, PatchFor(opts))
      ensures r.Ok? ==> r.value == (Patched(pod, PatchFor(opts)).port.GetOr(0), Patched(pod, PatchFor(opts)).alias)
      ensures r.Err? ==> claims.cluster.failed || (r == Err(WorkspaceNotFound) && workspace !in claims.cluster.world.pods)
      ensures unreleased || old(claims.cluster.failed) ==> claims.cluster.failed
      ensures if r.Ok? then PatchThenReleases(claims.cluster.run, Last(old(claims.cluster.run)), workspace, canonicalId, PatchFor(opts), keep)
              else ReleasesOnly(claims.cluster.run, Last(old(claims.cluster.run)), Last(claims.cluster.run), workspace, canonicalId, prev)
    {
      ghost var cid, me := canonicalId, workspace;
      ghost var before := claims.cluster.run;
      var port, alias := InEffect();
      var patched := claims.cluster.PatchPod(workspace, PatchFor(opts), UnderLock(workspace, canonicalId));
      ghost var mid := claims.cluster.run;
      if !patched.Done? {
        OthersKeepFlight(before, claims.cluster, me, cid);
        unreleased := Abort();
        InFlightChains(before, mid, claims.cluster, me, cid);
        ReleasesOnlyChains(mid, Last(before), claims.cluster.run, me, cid, prev);
        return Err(if patched.NotFound? then WorkspaceNotFound else ApiError), unreleased;
      }
      PatchIsSafe(before, mid);
      unreleased := ReleaseOld();
      InFlightChains(before, mid, claims.cluster, me, cid);
      PatchedOnce(before, mid, claims.cluster.run, me, cid, PatchFor(opts), keep);
      r := Ok((port, alias));
    }

    /** Once the pod carries the new alias. */
    method ReleaseOld() returns (failed: bool)
      requires claims.cluster.Valid()
      requires Standing(claims.cluster.run, Last(claims.cluster.run), workspace, canonicalId)
      requires Safe(claims.cluster.world, workspace, canonicalId)
      requires workspace in claims.cluster.world.pods && claims.cluster.world.pods[workspace].alias != "" ==>
                 keep == ClaimOf(claims.cluster.world.pods[workspace])
      requires Mine(claims.cluster.world, canonicalId).Keys == NonEmpty({prev, keep})
      modifies claims.cluster
      ensures InFlight(claims.cluster, old(claims.cluster.run), workspace, canonicalId)
      ensures SubMap(Mine(claims.cluster.world, canonicalId), Mine(old(claims.cluster.world), canonicalId))
      ensures ReleasesOnly(claims.cluster.run, Last(old(claims.cluster.run)), Last(claims.cluster.run), workspace, canonicalId, keep)
      ensures !failed ==> Mine(claims.cluster.world, canonicalId).Keys == NonEmpty({keep})
      ensures claims.cluster.failed == (old(claims.cluster.failed) || failed)
      ensures SamePod(old(claims.cluster.world), claims.cluster.world, workspace)
    {
      failed := false;
      if keep != prev {
        failed := ReleaseAllBut(keep);
      }
    }

    /** Commits when the steps before went well, gives the claim back when one failed. */
    method Finish(ok: bool) returns (r: Result<(int, string), UpdateError>, unreleased: bool)
      requires Prepared()
      modifies claims.cluster
      ensures InFlight(claims.cluster, old(claims.cluster.run), workspace, canonicalId)
      ensures SubMap(Mine(claims.cluster.world, canonicalId), Mine(old(claims.cluster.world), canonicalId))
      ensures !unreleased ==> Mine(claims.cluster.world, canonicalId).Keys == NonEmpty({if r.Ok? then keep else prev})
      ensures r.Err? ==> SamePod(old(claims.cluster.world), claims.cluster.world, workspace)
      ensures r.Ok? && workspace in claims.cluster.world.pods ==>
                claims.cluster.world.pods[workspace] == Patched(pod, PatchFor(opts))
      ensures r.Err? ==> !ok || claims.cluster.failed || (r == Err(WorkspaceNotFound) && workspace !in claims.cluster.world.pods)
      ensures unreleased || old(claims.cluster.failed) ==> claims.cluster.failed
    {
      if ok {
        r, unreleased := Commit();
      } else {
        r := Err(StepFailed);
        unreleased := Abort();
      }
    }

    /** The moment the patch lands is safe: the new label's claim is already held. */
    lemma PatchIsSafe(before: Run, run: Run)
      requires Legal(before) && Legal(run) && Extends(before, run) && Last(before) < Last(run)
      requires Standing(before, Last(before), workspace, canonicalId)
      requires Safe(before.worlds[Last(before)], workspace, canonicalId)
      requires keep == KeepOf(pod, opts) && prev == ClaimOf(pod) && Accepted(pod, opts)
      requires opts.replaceWebProxy ==> opts.webProxyPort >= 0
      requires workspace in before.worlds[Last(before)].pods ==> before.worlds[Last(before)].pods[workspace] == pod
      requires Mine(before.worlds[Last(before)], canonicalId).Keys == NonEmpty({prev, keep})
      requires workspace in run.worlds[Last(run) - 1].pods
      requires OthersThen(UnderLock(workspace, canonicalId), before, run,
                          [PodWritten(workspace, Patched(run.worlds[Last(run) - 1].pods[workspace], PatchFor(opts)))])
      ensures SafeBetween(run, Last(before), Last(run), workspace, canonicalId)
      ensures Standing(run, Last(run), workspace, canonicalId)
      ensures Mine(run.worlds[Last(run)], canonicalId) == Mine(before.worlds[Last(before)], canonicalId)
      ensures workspace in run.worlds[Last(run)].pods
           && run.worlds[Last(run)].pods[workspace] == Patched(pod, PatchFor(opts))
    {
      var k := Last(run) - 1;
      StandingExtends(before, run, Last(before), workspace, canonicalId);
      SafeWhileOthersAct(run, Last(before), k, workspace, canonicalId);
      assert run.actions[k] == run.actions[k..][0];
      assert LegalStep(run, k);
      StandingStep(run, k, workspace, canonicalId);
      assert Safe(run.worlds[k + 1], workspace, canonicalId);
    }
  }

  /** Where an update may start: under the lock, its release installed, none of its claims
      ever stale, and exactly the claim for the label on its pod, which has a route. */
  ghost predicate AtRest(cluster: Cluster, workspace: string, canonicalId: string)
    reads cluster
  {
    && cluster.Valid()
    && Standing(cluster.run, Last(cluster.run), workspace, canonicalId)
    && Safe(cluster.world, workspace, canonicalId)
    && HoldsItsLabel(cluster.world, workspace, canonicalId)
  }

  /** What prepare asks of an alias to set: a label, with a route, that is free, the
      workspace's own or stale. */
  predicate MayClaim(isAlias: string -> bool, pod: Pod, opts: UpdateOptions, workspace: string, w: World) {
    opts.webProxyAlias != "" ==>
      && isAlias(opts.webProxyAlias) && HasRouteAfter(pod, opts)
      && Obtainable(w, ClaimName(pod.organization, opts.webProxyAlias), workspace)
  }

  /** The workspace has a pod, and an alias to set may be claimed. */
  predicate MayUpdate(isAlias: string -> bool, opts: UpdateOptions, workspace: string, w: World) {
    workspace in w.pods && (opts.changeWebProxyAlias ==> MayClaim(isAlias, w.pods[workspace], opts, workspace, w))
  }

  /** Somebody else wrote, deleted or swept the claim for that alias of the pod, or installed
      a release. */
  ghost predicate Meddled(run: Run, i: nat, pod: Pod, opts: UpdateOptions, workspace: string, canonicalId: string) {
    Disturbed(UnderLock(workspace, canonicalId), run, i, Last(run), ClaimName(pod.organization, opts.webProxyAlias))
  }

  lemma MayStillClaim(r: Run, s: Run, isAlias: string -> bool, pod: Pod, opts: UpdateOptions, workspace: string, canonicalId: string)
    requires Legal(r) && Legal(s) && OthersThen(UnderLock(workspace, canonicalId), r, s, [])
    requires MayClaim(isAlias, pod, opts, workspace, r.worlds[Last(r)])
    ensures MayClaim(isAlias, pod, opts, workspace, s.worlds[Last(s)]) || Meddled(s, Last(r), pod, opts, workspace, canonicalId)
  {
    var name := ClaimName(pod.organization, opts.webProxyAlias);
    if opts.webProxyAlias != "" && !Obtainable(s.worlds[Last(s)], name, workspace) {
      HeldWasNotObtainable(UnderLock(workspace, canonicalId), r, s, name, workspace);
    }
  }

  lemma MeddledStays(r: Run, s: Run, i: nat, i': nat, pod: Pod, opts: UpdateOptions, workspace: string, canonicalId: string)
    requires Extends(r, s) && Meddled(r, i, pod, opts, workspace, canonicalId) && i' <= i
    ensures Meddled(s, i', pod, opts, workspace, canonicalId)
  {
    DisturbedStays(UnderLock(workspace, canonicalId), r, i, Last(r), s, i', Last(s), ClaimName(pod.organization, opts.webProxyAlias));
  }

  lemma NotClaimedBecause(before: Run, mid: Run, cluster: Cluster, isAlias: string -> bool, pod: Pod, opts: UpdateOptions,
                          workspace: string, canonicalId: string)
    requires Legal(before) && Legal(mid) && OthersThen(UnderLock(workspace, canonicalId), before, mid, [])
    requires Extends(mid, cluster.run)
    requires MayClaim(isAlias, pod, opts, workspace, mid.worlds[Last(mid)]) ==>
               cluster.failed || Meddled(cluster.run, Last(mid), pod, opts, workspace, canonicalId)
    ensures MayClaim(isAlias, pod, opts, workspace, before.worlds[Last(before)]) ==>
              cluster.failed || Meddled(cluster.run, Last(before), pod, opts, workspace, canonicalId)
  {
    if MayClaim(isAlias, pod, opts, workspace, before.worlds[Last(before)]) {
      MayStillClaim(before, mid, isAlias, pod, opts, workspace, canonicalId);
      if MayClaim(isAlias, pod, opts, workspace, mid.worlds[Last(mid)]) {
        if !cluster.failed {
          MeddledStays(cluster.run, cluster.run, Last(mid), Last(before), pod, opts, workspace, canonicalId);
        }
      } else {
        MeddledStays(mid, cluster.run, Last(before), Last(before), pod, opts, workspace, canonicalId);
      }
    }
  }

  /** Claims the alias an update sets, or returns "" when it clears it. */
  method ClaimForUpdate(claims: AliasClaims, pod: Pod, opts: UpdateOptions, workspace: string, canonicalId: string)
    returns (r: Result<string, ClaimError>)
    requires claims.cluster.Valid()
    requires Standing(claims.cluster.run, Last(claims.cluster.run), workspace, canonicalId)
    requires Safe(claims.cluster.world, workspace, canonicalId)
    modifies claims.cluster
    ensures InFlight(claims.cluster, old(claims.cluster.run), workspace, canonicalId)
    ensures SamePod(old(claims.cluster.world), claims.cluster.world, workspace)
    ensures SubMap(Mine(old(claims.cluster.world), canonicalId), Mine(claims.cluster.world, canonicalId))
    ensures r.Err? ==> Mine(claims.cluster.world, canonicalId) == Mine(old(claims.cluster.world), canonicalId)
    ensures r.Ok? ==> r.value == if opts.webProxyAlias == "" then "" else ClaimName(pod.organization, opts.webProxyAlias)
    ensures r.Ok? ==>
              Mine(claims.cluster.world, canonicalId).Keys
              == Mine(old(claims.cluster.world), canonicalId).Keys + NonEmpty({r.value})
    ensures r.Ok? && opts.webProxyAlias != "" ==> claims.isAlias(opts.webProxyAlias) && HasRouteAfter(pod, opts)
    ensures opts.webProxyAlias != "" && !claims.isAlias(opts.webProxyAlias) ==> r == Err(InvalidAlias)
    ensures opts.webProxyAlias != "" && claims.isAlias(opts.webProxyAlias) && !HasRouteAfter(pod, opts) ==>
              r == Err(NoRoute)
    ensures MayClaim(claims.isAlias, pod, opts, workspace, old(claims.cluster.world)) ==>
              || r.Ok? || claims.cluster.failed
              || Meddled(claims.cluster.run, Last(old(claims.cluster.run)), pod, opts, workspace, canonicalId)
    ensures old(claims.cluster.failed) ==> claims.cluster.failed
  {
    if opts.webProxyAlias == "" {
      return Ok("");
    }
    if !claims.isAlias(opts.webProxyAlias) {
      return Err(InvalidAlias);
    }
    var hasRoute := pod.port.Some?;
    if opts.replaceWebProxy {
      hasRoute := opts.webProxyPort > 0;
    }
    if !hasRoute {
      return Err(NoRoute);
    }
    ghost var before := claims.cluster.run;
    ghost var own;
    r, own := claims.Claim(pod.organization, opts.webProxyAlias, workspace, canonicalId,
                           UnderLock(workspace, canonicalId));
    StandingExtends(before, claims.cluster.run, Last(before), workspace, canonicalId);
    SafeWhileClaiming(claims.cluster.run, Last(before), Last(claims.cluster.run), own, workspace, canonicalId,
                      pod.organization, opts.webProxyAlias);
    if r.Ok? {
      AlwaysConsistent(claims.cluster.run, Last(claims.cluster.run));
      HeldByMe(claims.cluster.world, workspace, canonicalId, r.value);
    }
  }

  /** Validates the web-proxy part of an update and claims its alias, without touching the
      pod. When it fails, or has nothing to do, the workspace's claims are what they were. */
  method PrepareWebProxyUpdate(claims: AliasClaims, workspace: string, canonicalId: string, opts: UpdateOptions)
    returns (r: Result<WebProxyUpdate?, UpdateError>)
    requires AtRest(claims.cluster, workspace, canonicalId)
    requires opts.replaceWebProxy ==> opts.webProxyPort >= 0
    modifies claims.cluster
    ensures InFlight(claims.cluster, old(claims.cluster.run), workspace, canonicalId)
    ensures SamePod(old(claims.cluster.world), claims.cluster.world, workspace)
    ensures SubMap(Mine(old(claims.cluster.world), canonicalId), Mine(claims.cluster.world, canonicalId))
    ensures r.Err? || r.value == null ==>
              Mine(claims.cluster.world, canonicalId) == Mine(old(claims.cluster.world), canonicalId)
    ensures r == Ok(null) ==> !opts.replaceWebProxy && !opts.changeWebProxyAlias
    ensures r.Ok? && r.value != null ==>
              && r.value.claims == claims && r.value.workspace == workspace && r.value.canonicalId == canonicalId
              && r.value.opts == opts && r.value.Prepared()
              && workspace in old(claims.cluster.world.pods) && r.value.pod == old(claims.cluster.world.pods[workspace])
    ensures r.Err? && MayUpdate(claims.isAlias, opts, workspace, old(claims.cluster.world)) ==>
              || claims.cluster.failed || workspace !in claims.cluster.world.pods
              || Meddled(claims.cluster.run, Last(old(claims.cluster.run)), old(claims.cluster.world.pods[workspace]), opts,
                         workspace, canonicalId)
    ensures old(claims.cluster.failed) ==> claims.cluster.failed
  {
    if !opts.replaceWebProxy && !opts.changeWebProxyAlias {
      return Ok(null);
    }
    ghost var before := claims.cluster.run;
    var got := claims.cluster.GetPod(workspace, UnderLock(workspace, canonicalId));
    OthersKeepFlight(before, claims.cluster, workspace, canonicalId);
    if got.Err? {
      return Err(if got.error.NotFound? then WorkspaceNotFound else ApiError);
    }
    var pod := got.value;
    var keep := ClaimOf(pod);
    if opts.changeWebProxyAlias {
      ghost var mid := claims.cluster.run;
      var claimed := ClaimForUpdate(claims, pod, opts, workspace, canonicalId);
      InFlightChains(before, mid, claims.cluster, workspace, canonicalId);
      if claimed.Err? {
        NotClaimedBecause(before, mid, claims.cluster, claims.isAlias, pod, opts, workspace, canonicalId);
        return Err(NotClaimed(claimed.error));
      }
      keep := claimed.value;
    } else if ClearsRoute(opts) {
      keep := "";
    }
    var u := new WebProxyUpdate(claims, workspace, canonicalId, opts, pod, keep);
    r := Ok(u);
  }

  /** Resizing and re-applying network policies: other objects of the same workspace, which
      may fail, while the others go on acting. */
  method OtherStep(claims: AliasClaims, workspace: string, canonicalId: string) returns (ok: bool)
    requires claims.cluster.Valid()
    requires Standing(claims.cluster.run, Last(claims.cluster.run), workspace, canonicalId)
    requires Safe(claims.cluster.world, workspace, canonicalId)
    modifies claims.cluster
    ensures InFlight(claims.cluster, old(claims.cluster.run), workspace, canonicalId)
    ensures Mine(claims.cluster.world, canonicalId) == Mine(old(claims.cluster.world), canonicalId)
    ensures SamePod(old(claims.cluster.world), claims.cluster.world, workspace)
    ensures claims.cluster.failed == (old(claims.cluster.failed) || !ok)
  {
    ghost var before := claims.cluster.run;
    ok := claims.cluster.OtherCall(UnderLock(workspace, canonicalId));
    OthersKeepFlight(before, claims.cluster, workspace, canonicalId);
  }

  /** The resources, then the network policies. */
  method ChangeResourcesAndNetwork(claims: AliasClaims, workspace: string, canonicalId: string, opts: UpdateOptions)
    returns (ok: bool)
    requires claims.cluster.Valid()
    requires Standing(claims.cluster.run, Last(claims.cluster.run), workspace, canonicalId)
    requires Safe(claims.cluster.world, workspace, canonicalId)
    modifies claims.cluster
    ensures InFlight(claims.cluster, old(claims.cluster.run), workspace, canonicalId)
    ensures Mine(claims.cluster.world, canonicalId) == Mine(old(claims.cluster.world), canonicalId)
    ensures SamePod(old(claims.cluster.world), claims.cluster.world, workspace)
    ensures claims.cluster.failed == (old(claims.cluster.failed) || !ok)
  {
    ghost var before := claims.cluster.run;
    ok := true;
    if opts.changeResources {
      ok := OtherStep(claims, workspace, canonicalId);
    }
    if ok && opts.changeNetwork {
      ghost var mid := claims.cluster.run;
      ok := OtherStep(claims, workspace, canonicalId);
      InFlightChains(before, mid, claims.cluster, workspace, canonicalId);
    }
  }

  lemma BackToStart(start: map<string, Object<Claim>>, most: map<string, Object<Claim>>, end: map<string, Object<Claim>>)
    requires SubMap(start, most) && SubMap(end, most) && start.Keys == end.Keys
    ensures start == end
  {
  }

  /** A whole update. At every moment of it, hence wherever the provisioner may crash, a
      label on the pod is backed by a claim and a route. A failed update leaves the pod as it
      was and, unless a release failed, exactly the claims held before; a successful one
      leaves exactly the claim for the new label. */
  method UpdateResourcesAndNetwork(claims: AliasClaims, workspace: string, canonicalId: string, opts: UpdateOptions)
    returns (r: Result<(int, string), UpdateError>, unreleased: bool)
    requires AtRest(claims.cluster, workspace, canonicalId)
    requires opts.replaceWebProxy ==> opts.webProxyPort >= 0
    modifies claims.cluster
    ensures claims.cluster.Valid() && Extends(old(claims.cluster.run), claims.cluster.run)
    ensures SafeBetween(claims.cluster.run, Last(old(claims.cluster.run)), Last(claims.cluster.run), workspace, canonicalId)
    ensures Standing(claims.cluster.run, Last(claims.cluster.run), workspace, canonicalId)
    ensures r.Err? ==> SamePod(old(claims.cluster.world), claims.cluster.world, workspace)
    ensures r.Err? && !unreleased ==>
              Mine(claims.cluster.world, canonicalId) == Mine(old(claims.cluster.world), canonicalId)
    ensures r.Ok? && workspace in claims.cluster.world.pods ==>
              && workspace in old(claims.cluster.world.pods)
              && claims.cluster.world.pods[workspace] == Patched(old(claims.cluster.world.pods[workspace]), PatchFor(opts))
              && (opts.replaceWebProxy && opts.webProxyPort > 0 ==>
                    claims.cluster.world.pods[workspace].port == Some(opts.webProxyPort))
    ensures r.Ok? && !unreleased ==> HoldsItsLabel(claims.cluster.world, workspace, canonicalId)
    ensures unreleased ==> claims.cluster.failed
    ensures r.Err? && MayUpdate(claims.isAlias, opts, workspace, old(claims.cluster.world)) ==>
              || claims.cluster.failed || workspace !in claims.cluster.world.pods
              || Meddled(claims.cluster.run, Last(old(claims.cluster.run)), old(claims.cluster.world.pods[workspace]), opts,
                         workspace, canonicalId)
  {
    ghost var before, start := claims.cluster.run, Mine(claims.cluster.world, canonicalId);
    var prepared := PrepareWebProxyUpdate(claims, workspace, canonicalId, opts);
    if prepared.Err? {
      return Err(prepared.error), false;
    }
    var u := prepared.value;
    ghost var mid, most := claims.cluster.run, Mine(claims.cluster.world, canonicalId);
    if u == null {
      var ok := ChangeResourcesAndNetwork(claims, workspace, canonicalId, opts);
      InFlightChains(before, mid, claims.cluster, workspace, canonicalId);
      return if ok then Ok((0, "")) else Err(StepFailed), false;
    }
    assert start.Keys == NonEmpty({u.prev});
    r, unreleased := ChangeAndFinish(u);
    InFlightChains(before, mid, claims.cluster, workspace, canonicalId);
    if r.Err? && !unreleased {
      BackToStart(start, most, Mine(claims.cluster.world, canonicalId));
    }
    if r.Ok? {
      WhatAnUpdateWrites(u.pod, opts);
    }
  }

  /** The rest of an update once its web-proxy part is prepared. */
  method ChangeAndFinish(u: WebProxyUpdate) returns (r: Result<(int, string), UpdateError>, unreleased: bool)
    requires u.Prepared()
    modifies u.claims.cluster
    ensures InFlight(u.claims.cluster, old(u.claims.cluster.run), u.workspace, u.canonicalId)
    ensures SubMap(Mine(u.claims.cluster.world, u.canonicalId), Mine(old(u.claims.cluster.world), u.canonicalId))
    ensures !unreleased ==> Mine(u.claims.cluster.world, u.canonicalId).Keys == NonEmpty({if r.Ok? then u.keep else u.prev})
    ensures r.Err? ==> SamePod(old(u.claims.cluster.world), u.claims.cluster.world, u.workspace)
    ensures r.Ok? && u.workspace in u.claims.cluster.world.pods ==>
              u.claims.cluster.world.pods[u.workspace] == Patched(u.pod, PatchFor(u.opts))
    ensures r.Err? || unreleased || old(u.claims.cluster.failed) ==>
              u.claims.cluster.failed || (!unreleased && u.workspace !in u.claims.cluster.world.pods)
  {
    ghost var before := u.claims.cluster.run;
    var ok := ChangeResourcesAndNetwork(u.claims, u.workspace, u.canonicalId, u.opts);
    ghost var mid := u.claims.cluster.run;
    r, unreleased := u.Finish(ok);
    InFlightChains(before, mid, u.claims.cluster, u.workspace, u.canonicalId);
  }
}
