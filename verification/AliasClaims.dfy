/** The alias code (internal/workspace/alias.go) as methods over a shared cluster.

    Every call first lets the others act for as long as they like and then takes its own
    step atomically. The cluster keeps the run as a ghost history, so each method's
    contract can say which steps it added and what held at every moment in between. */
module AliasClaims {
  import opened Prelude
  import opened Runs
  import opened ApiServer
  import opened AliasProtocol

  const CLAIM_ATTEMPTS: nat := 3

  /** s is r followed by steps of others and then, at the very end, the steps own. */
  ghost predicate OthersThen(rely: Rely, r: Run, s: Run, own: seq<Action>) {
    && Extends(r, s)
    && |r.actions| + |own| <= |s.actions|
    && OthersOnly(rely, s, |r.actions|, |s.actions| - |own|)
    && s.actions[|s.actions| - |own|..] == own
  }

  lemma JustifiedStays(r: Run, s: Run, k: nat, a: Action)
    requires r.worlds <= s.worlds && k < |r.worlds| && Justified(r, k, a)
    ensures Justified(s, k, a)
  {
    match a
    case ClaimCreated(_, claim) =>
      var m: nat :| m <= k && StampedAt(r, m, claim);
      assert StampedAt(s, m, claim);
    case ClaimTakenOver(name, seen, claim) =>
      var m: nat :| m <= k && StampedAt(r, m, claim);
      assert StampedAt(s, m, claim);
      var g: nat, j: nat :| JudgedStale(r, g, j, k, name, seen);
      assert JudgedStale(s, g, j, k, name, seen);
    case ClaimDeleted(name, version, canonicalId) =>
      var g: nat, o :| ReadAt(r, g, k, name, o) && o.version == version && o.value.canonicalId == canonicalId;
      assert ReadAt(s, g, k, name, o);
    case _ =>
  }

  ghost function With(r: Run, a: Action): Run
    requires |r.worlds| == |r.actions| + 1
  {
    History(r.worlds + [Apply(r.worlds[Last(r)], a)], r.actions + [a])
  }

  lemma LegalWithStep(r: Run, a: Action)
    requires Legal(r) && Enabled(r.worlds[Last(r)], a) && Justified(r, Last(r), a)
    ensures Legal(With(r, a))
  {
    var s := With(r, a);
    forall k | 0 <= k < |s.actions|
      ensures LegalStep(s, k)
    {
      if k < |r.actions| {
        assert LegalStep(r, k);
      }
      JustifiedStays(r, s, k, s.actions[k]);
    }
  }

  class Cluster {
    var world: World
    ghost var run: Run
    ghost var failed: bool  // whether any call failed

    ghost predicate Valid()
      reads this
    {
      Legal(run) && run.worlds[Last(run)] == world
    }

    /** What the other provisioner replicas, Helm, the kubelets and the clock do between two
        of this caller's calls. Callers see only the contract, so the empty body stands for
        every behaviour the contract allows. */
    method Others(ghost rely: Rely)
      requires Valid()
      modifies this
      ensures Valid() && OthersThen(rely, old(run), run, []) && failed == old(failed)
    {
    }

    /** One atomic step of the caller. */
    method Act(a: Action)
      requires Valid() && Enabled(world, a) && Justified(run, Last(run), a)
      modifies this
      ensures Valid() && world == Apply(old(world), a) && failed == old(failed)
      ensures run == History(old(run.worlds) + [world], old(run.actions) + [a])
    {
      LegalWithStep(run, a);
      world := Apply(world, a);
      run := History(run.worlds + [world], run.actions + [a]);
    }

    method Now(ghost rely: Rely) returns (now: nat)
      requires Valid()
      modifies this
      ensures Valid() && OthersThen(rely, old(run), run, []) && now == world.now && failed == old(failed)
    {
      Others(rely);
      now := world.now;
    }

    method ReleaseExists(workspace: string, ghost rely: Rely) returns (r: Result<bool, Outcome>)
      requires Valid()
      modifies this
      ensures Valid() && OthersThen(rely, old(run), run, [])
      ensures r.Ok? ==> r.value == (workspace in world.releases)
      ensures failed == (old(failed) || r.Err?)
    {
      Others(rely);
      var broken: bool := *;
      failed := failed || broken;
      r := if broken then Err(Failed) else Ok(workspace in world.releases);
    }

    method GetClaim(name: string, ghost rely: Rely) returns (r: Result<Object<Claim>, Outcome>)
      requires Valid()
      modifies this
      ensures Valid() && OthersThen(rely, old(run), run, [])
      ensures r.Ok? ==> Has(world.claims, name, r.value)
      ensures r == Err(NotFound) ==> name !in world.claims.objects
      ensures r.Err? ==> r.error == NotFound || r.error == Failed
      ensures failed == (old(failed) || r == Err(Failed))
    {
      Others(rely);
      var broken: bool := *;
      failed := failed || broken;
      r := if broken then Err(Failed)
           else if name in world.claims.objects then Ok(world.claims.objects[name]) else Err(NotFound);
    }

    method CreateClaim(name: string, claim: Claim, ghost rely: Rely) returns (o: Outcome)
      requires Valid() && name != ""
      requires WellOwned(world.ids, claim) && exists m: nat :: StampedAt(run, m, claim)
      modifies this
      ensures Valid() && OthersThen(rely, old(run), run, if o.Done? then [ClaimCreated(name, claim)] else [])
      ensures o.Done? ==> name in world.claims.objects && world.claims.objects[name].value == claim
      ensures o.AlreadyExists? ==> name in world.claims.objects
      ensures o.Done? || o.AlreadyExists? || o.Failed?
      ensures failed == (old(failed) || o.Failed?)
    {
      ghost var m: nat :| StampedAt(run, m, claim);
      Others(rely);
      var broken: bool := *;
      failed := failed || broken;
      if broken {
        return Failed;
      }
      if name in world.claims.objects {
        return AlreadyExists;
      }
      AlwaysConsistent(old(run), Last(old(run)));
      AlwaysConsistent(run, Last(run));
      assert StampedAt(run, m, claim);
      Act(ClaimCreated(name, claim));
      o := Done;
    }

    /** The claim was stamped at moment m, and seen read at g and judged stale at j. */
    method TakeOverClaim(name: string, seen: Object<Claim>, claim: Claim, ghost rely: Rely,
                         ghost m: nat, ghost g: nat, ghost j: nat) returns (o: Outcome)
      requires Valid() && WellOwned(world.ids, claim) && StampedAt(run, m, claim)
      requires JudgedStale(run, g, j, Last(run), name, seen)
      modifies this
      ensures Valid() && OthersThen(rely, old(run), run, if o.Done? then [ClaimTakenOver(name, seen, claim)] else [])
      ensures o.Done? ==> name in world.claims.objects && world.claims.objects[name].value == claim
      ensures o.Done? || o.NotFound? || o.Conflict? || o.Failed?
      ensures o.NotFound? || o.Conflict? ==> !AtVersion(world.claims, name, seen.version)
      ensures failed == (old(failed) || o.Failed?)
    {
      Others(rely);
      var broken: bool := *;
      failed := failed || broken;
      if broken {
        return Failed;
      }
      if name !in world.claims.objects {
        return NotFound;
      }
      if world.claims.objects[name].version != seen.version {
        return Conflict;
      }
      SameIds(old(run), run);
      TakeOverStands(old(run), run, m, g, j, name, seen, claim);
      Act(ClaimTakenOver(name, seen, claim));
      o := Done;
    }

    method GetPod(workspace: string, ghost rely: Rely) returns (r: Result<Pod, Outcome>)
      requires Valid()
      modifies this
      ensures Valid() && OthersThen(rely, old(run), run, [])
      ensures r.Ok? ==> workspace in world.pods && world.pods[workspace] == r.value
      ensures r == Err(NotFound) ==> workspace !in world.pods
      ensures failed == (old(failed) || (r.Err? && r.error != NotFound))
    {
      Others(rely);
      var broken: bool := *;
      failed := failed || broken;
      r := if broken then Err(Failed)
           else if workspace in world.pods then Ok(world.pods[workspace]) else Err(NotFound);
    }

    method PatchPod(workspace: string, patch: PodPatch, ghost rely: Rely) returns (o: Outcome)
      requires Valid()
      modifies this
      ensures Valid() && Extends(old(run), run)
      ensures o.Done? ==>
                && Last(old(run)) < Last(run)
                && workspace in run.worlds[Last(run) - 1].pods
                && OthersThen(rely, old(run), run,
                              [PodWritten(workspace, Patched(run.worlds[Last(run) - 1].pods[workspace], patch))])
      ensures !o.Done? ==> OthersThen(rely, old(run), run, [])
      ensures o.NotFound? ==> workspace !in world.pods
      ensures failed == (old(failed) || !(o.Done? || o.NotFound?))
    {
      Others(rely);
      var broken: bool := *;
      failed := failed || broken;
      if broken {
        return Failed;
      }
      if workspace !in world.pods {
        return NotFound;
      }
      Act(PodWritten(workspace, Patched(world.pods[workspace], patch)));
      o := Done;
    }

    /** Any call about other objects. */
    method OtherCall(ghost rely: Rely) returns (ok: bool)
      requires Valid()
      modifies this
      ensures Valid() && OthersThen(rely, old(run), run, []) && failed == (old(failed) || !ok)
    {
      Others(rely);
      ok := *;
      failed := failed || !ok;
    }

    method ListClaims(canonicalId: string, ghost rely: Rely) returns (r: Result<seq<(string, nat)>, Outcome>)
      requires Valid()
      modifies this
      ensures Valid() && OthersThen(rely, old(run), run, [])
      ensures r.Ok? ==> Lists(world, canonicalId, r.value)
      ensures failed == (old(failed) || r.Err?)
    {
      Others(rely);
      var broken: bool := *;
      failed := failed || broken;
      if broken {
        return Err(Failed);
      }
      var mine := Mine(world, canonicalId);
      var names, items := mine.Keys, [];
      while names != {}
        invariant names <= mine.Keys
        invariant forall name <- mine :: name in names || (name, mine[name].version) in items
        invariant forall item <- items :: item.0 in mine && mine[item.0].version == item.1
      {
        var name :| name in names;
        items := items + [(name, mine[name].version)];
        names := names - {name};
      }
      r := Ok(items);
    }

    /** The claim c was read at moment g. */
    method DeleteClaim(name: string, version: nat, canonicalId: string, ghost rely: Rely, ghost g: nat, ghost c: Object<Claim>)
        returns (o: Outcome)
      requires Valid()
      requires ReadAt(run, g, Last(run), name, c) && c.version == version && c.value.canonicalId == canonicalId
      modifies this
      ensures Valid() && OthersThen(rely, old(run), run, if o.Done? then [ClaimDeleted(name, version, canonicalId)] else [])
      ensures o.Done? || o.NotFound? ==> name !in world.claims.objects
      ensures o.Conflict? ==> name in world.claims.objects && world.claims.objects[name].version != version
      ensures o.Done? || o.NotFound? || o.Conflict? || o.Failed?
      ensures failed == (old(failed) || o.Failed?)
    {
      Others(rely);
      var broken: bool := *;
      failed := failed || broken;
      if broken {
        return Failed;
      }
      if name !in world.claims.objects {
        return NotFound;
      }
      if world.claims.objects[name].version != version {
        return Conflict;
      }
      assert ReadAt(run, g, Last(run), name, c);
      Act(ClaimDeleted(name, version, canonicalId));
      o := Done;
    }
  }

  /** A claim judged stale may be taken over later too: the version decides. */
  lemma TakeOverStands(r: Run, s: Run, m: nat, g: nat, j: nat, name: string, seen: Object<Claim>, claim: Claim)
    requires Legal(r) && Legal(s) && Extends(r, s)
    requires StampedAt(r, m, claim) && JudgedStale(r, g, j, Last(r), name, seen)
    requires WellOwned(s.worlds[Last(s)].ids, claim)
    ensures Justified(s, Last(s), ClaimTakenOver(name, seen, claim))
  {
    assert StampedAt(s, m, claim);
    assert JudgedStale(s, g, j, Last(s), name, seen);
  }

  /** A merge patch of the pod's web-proxy metadata: None leaves a key alone. */
  datatype PodPatch = PodPatch(setPort: Option<Option<int>>, setAlias: Option<string>)

  function Patched(pod: Pod, patch: PodPatch): Pod {
    Pod(pod.organization,
        if patch.setAlias.Some? then patch.setAlias.value else pod.alias,
        if patch.setPort.Some? then patch.setPort.value else pod.port)
  }

  ghost predicate Lists(w: World, canonicalId: string, items: seq<(string, nat)>) {
    && (forall name <- Mine(w, canonicalId) :: (name, Mine(w, canonicalId)[name].version) in items)
    && (forall item <- items :: item.0 in Mine(w, canonicalId) && Mine(w, canonicalId)[item.0].version == item.1)
  }

  // ---- what the methods below leave behind ----

  lemma OthersThenChains(rely: Rely, r: Run, s: Run, t: Run, own: seq<Action>)
    requires OthersThen(rely, r, s, []) && OthersThen(rely, s, t, own)
    ensures OthersThen(rely, r, t, own)
  {
    forall k | |r.actions| <= k < |t.actions| - |own|
      ensures ByOthers(rely, t.actions[k])
    {
      assert k < |s.actions| ==> t.actions[k] == s.actions[k];
    }
  }

  function NewClaim(organization: string, alias: string, workspace: string, canonicalId: string, now: nat): Claim {
    Claim(organization, alias, workspace, canonicalId, Some(Stamp(now)))
  }

  /** A new claim can be taken over once five minutes have passed since the whole second it
      was made in, and only while its holder has no release. */
  lemma GraceOfANewClaim(w: World, organization: string, alias: string, workspace: string, canonicalId: string, made: nat)
    requires workspace != ""
    ensures Stale(w, NewClaim(organization, alias, workspace, canonicalId, made)) <==>
            w.now >= made - made % 1_000_000_000 + 300_000_000_000 && workspace !in w.releases
  {
  }

  /** The claim step a call to Claim may take. */
  predicate TakesClaim(a: Action, organization: string, alias: string, workspace: string, canonicalId: string) {
    match a
    case ClaimCreated(name, c) =>
      && name == ClaimName(organization, alias)
      && c == Claim(organization, alias, workspace, canonicalId, c.claimedAt)
    case ClaimTakenOver(name, seen, c) =>
      && name == ClaimName(organization, alias)
      && seen.value.holder != workspace
      && c == Claim(organization, alias, workspace, canonicalId, c.claimedAt)
    case _ => false
  }

  /** From moment i to moment j only others act, or this workspace deletes claims of its own
      other than keep. */
  ghost predicate ReleasesOnly(run: Run, i: nat, j: nat, workspace: string, canonicalId: string, keep: string) {
    && i <= j <= |run.actions|
    && forall k :: i <= k < j ==>
         || ByOthers(UnderLock(workspace, canonicalId), run.actions[k])
         || (&& run.actions[k].ClaimDeleted?
             && run.actions[k].canonicalId == canonicalId
             && run.actions[k].name != keep)
  }

  /** From moment i to moment j others act and the workspace takes at most one claim, of
      alias, before it deletes claims of its own other than keep. */
  ghost predicate ClaimsThenReleases(run: Run, i: nat, j: nat, organization: string, alias: string,
                                     workspace: string, canonicalId: string, keep: string) {
    exists t: nat :: i <= t && ClaimsOnce(run, i, t, organization, alias, workspace, canonicalId)
                     && ReleasesOnly(run, t, j, workspace, canonicalId, keep)
  }

  ghost predicate ClaimsOnce(run: Run, i: nat, t: nat, organization: string, alias: string,
                             workspace: string, canonicalId: string) {
    && i <= t <= |run.actions|
    && forall k :: i <= k < t ==>
         || ByOthers(UnderLock(workspace, canonicalId), run.actions[k])
         || (k == t - 1 && TakesClaim(run.actions[k], organization, alias, workspace, canonicalId))
  }

  lemma ClaimsOnceStays(rely: Rely, r: Run, s: Run, t: Run, own: seq<Action>, organization: string, alias: string,
                        workspace: string, canonicalId: string)
    requires OthersThen(rely, r, s, own) && rely == UnderLock(workspace, canonicalId) && Extends(s, t)
    requires |own| <= 1 && forall a <- own :: TakesClaim(a, organization, alias, workspace, canonicalId)
    ensures ClaimsOnce(t, Last(r), Last(s), organization, alias, workspace, canonicalId)
  {
    forall k | Last(r) <= k < Last(s)
      ensures ByOthers(rely, t.actions[k])
           || (k == Last(s) - 1 && TakesClaim(t.actions[k], organization, alias, workspace, canonicalId))
    {
      assert t.actions[k] == s.actions[k];
      if k >= Last(s) - |own| {
        assert own[0] == s.actions[k] && own[0] in own;
      }
    }
  }

  lemma ReleasesOnlyChains(r: Run, i: nat, s: Run, workspace: string, canonicalId: string, keep: string)
    requires Extends(r, s) && ReleasesOnly(r, i, Last(r), workspace, canonicalId, keep)
    requires ReleasesOnly(s, Last(r), Last(s), workspace, canonicalId, keep)
    ensures ReleasesOnly(s, i, Last(s), workspace, canonicalId, keep)
  {
    forall k | i <= k < Last(s)
      ensures ByOthers(UnderLock(workspace, canonicalId), s.actions[k])
           || (s.actions[k].ClaimDeleted? && s.actions[k].canonicalId == canonicalId && s.actions[k].name != keep)
    {
      assert k < Last(r) ==> s.actions[k] == r.actions[k];
    }
  }

  /** What is left of the claims seen, apart from keep, is still to be dropped. */
  ghost predicate Remaining(mine: map<string, Object<Claim>>, seen: map<string, Object<Claim>>, keep: string,
                            failed: bool, rest: seq<(string, nat)>) {
    && SubMap(mine, seen)
    && forall name <- mine :: name == keep || failed || (name, seen[name].version) in rest
  }

  lemma RemainingNext(before: map<string, Object<Claim>>, after: map<string, Object<Claim>>, seen: map<string, Object<Claim>>,
                      keep: string, failed: bool, rest: seq<(string, nat)>)
    requires rest != [] && SubMap(after, before) && SubMap(before, seen)
    requires failed || Remaining(before, seen, keep, false, rest)
    requires !failed && rest[0].0 != keep && rest[0].0 in after ==> after[rest[0].0].version != rest[0].1
    ensures Remaining(after, seen, keep, failed, rest[1..])
  {
    assert rest == [rest[0]] + rest[1..];
  }

  /** Throughout a release the workspace's claims only go away one by one, and the kept one
      stays: at every moment, so at every point where the caller may crash. */
  lemma {:induction false} ReleaseKeeps(run: Run, i: nat, j: nat, workspace: string, canonicalId: string, keep: string)
    requires Legal(run) && ReleasesOnly(run, i, j, workspace, canonicalId, keep)
    requires Standing(run, i, workspace, canonicalId)
    ensures Standing(run, j, workspace, canonicalId)
    ensures SubMap(Mine(run.worlds[j], canonicalId), Mine(run.worlds[i], canonicalId))
    ensures keep in Mine(run.worlds[i], canonicalId) ==> keep in Mine(run.worlds[j], canonicalId)
    ensures workspace in run.worlds[j].pods ==>
              workspace in run.worlds[i].pods && run.worlds[j].pods[workspace] == run.worlds[i].pods[workspace]
    decreases j
  {
    if i < j {
      ReleaseKeeps(run, i, j - 1, workspace, canonicalId, keep);
      assert LegalStep(run, j - 1);
      if ByOthers(UnderLock(workspace, canonicalId), run.actions[j - 1]) {
        OthersKeepMine(run, j - 1, j, workspace, canonicalId);
      } else {
        StandingStep(run, j - 1, workspace, canonicalId);
      }
    }
  }

  /** Between moments i and j somebody else wrote, deleted or swept the claim of that name, or
      installed a release. */
  ghost predicate Disturbed(rely: Rely, run: Run, i: nat, j: nat, name: string) {
    exists k :: i <= k < j && k < |run.actions| && ByOthers(rely, run.actions[k]) && Disturbs(run.actions[k], name)
  }

  predicate Disturbs(a: Action, name: string) {
    match a
    case ClaimCreated(n, _) => n == name
    case ClaimTakenOver(n, _, _) => n == name
    case ClaimDeleted(n, _, _) => n == name
    case ClaimsSwept(_) => true
    case ReleaseInstalled(_) => true
    case _ => false
  }

  /** Nobody holds the claim, or the workspace itself, or a stale holder. */
  predicate Obtainable(w: World, name: string, workspace: string) {
    name in w.claims.objects ==>
      w.claims.objects[name].value.holder == workspace || Stale(w, w.claims.objects[name].value)
  }

  predicate SameClaim(w: World, v: World, name: string) {
    && (name in w.claims.objects <==> name in v.claims.objects)
    && (name in w.claims.objects ==> v.claims.objects[name] == w.claims.objects[name])
  }

  lemma DisturbedStays(rely: Rely, r: Run, i: nat, j: nat, s: Run, i': nat, j': nat, name: string)
    requires Disturbed(rely, r, i, j, name) && Extends(r, s) && i' <= i && j <= j'
    ensures Disturbed(rely, s, i', j', name)
  {
    var k :| i <= k < j && k < |r.actions| && ByOthers(rely, r.actions[k]) && Disturbs(r.actions[k], name);
    assert s.actions[k] == r.actions[k];
  }

  lemma {:induction false} UndisturbedStays(rely: Rely, run: Run, i: nat, j: nat, name: string, workspace: string)
    requires Legal(run) && OthersOnly(rely, run, i, j) && !Disturbed(rely, run, i, j, name)
    ensures SameClaim(run.worlds[i], run.worlds[j], name)
    ensures Obtainable(run.worlds[i], name, workspace) ==> Obtainable(run.worlds[j], name, workspace)
    decreases j
  {
    if i < j {
      assert ByOthers(rely, run.actions[j - 1]) && !Disturbs(run.actions[j - 1], name);
      UndisturbedStays(rely, run, i, j - 1, name, workspace);
      assert LegalStep(run, j - 1);
    }
  }

  /** What was read at the end of r and is found otherwise at the end of s was disturbed. */
  lemma ChangedWasDisturbed(rely: Rely, r: Run, s: Run, name: string)
    requires Legal(r) && Legal(s) && OthersThen(rely, r, s, [])
    requires !SameClaim(r.worlds[Last(r)], s.worlds[Last(s)], name)
    ensures Disturbed(rely, s, Last(r), Last(s), name)
  {
    assert s.worlds[Last(r)] == r.worlds[Last(r)];
    if !Disturbed(rely, s, Last(r), Last(s), name) {
      UndisturbedStays(rely, s, Last(r), Last(s), name, "");
    }
  }

  /** A claim that another holds and that is not stale was not obtainable before, unless it
      was disturbed. */
  lemma HeldWasNotObtainable(rely: Rely, r: Run, s: Run, name: string, workspace: string)
    requires Legal(r) && Legal(s) && OthersThen(rely, r, s, [])
    requires Obtainable(r.worlds[Last(r)], name, workspace) && !Obtainable(s.worlds[Last(s)], name, workspace)
    ensures Disturbed(rely, s, Last(r), Last(s), name)
  {
    assert s.worlds[Last(r)] == r.worlds[Last(r)];
    if !Disturbed(rely, s, Last(r), Last(s), name) {
      UndisturbedStays(rely, s, Last(r), Last(s), name, workspace);
    }
  }

  datatype ClaimError = Held(holder: string) | ApiFailure | TooManyClaimers | InvalidAlias | NoRoute

  datatype Message = NoMessage | NotALabel | HeldBy(holder: string)

  /** A claim of another that was read at the end of s and found not stale at the end of t. */
  lemma Refused(rely: Rely, r: Run, s: Run, t: Run, name: string, workspace: string)
    requires Legal(r) && Legal(s) && Legal(t) && OthersThen(rely, r, s, []) && OthersThen(rely, s, t, [])
    requires name in s.worlds[Last(s)].claims.objects
    requires s.worlds[Last(s)].claims.objects[name].value.holder != workspace
    requires !Stale(t.worlds[Last(t)], s.worlds[Last(s)].claims.objects[name].value)
    requires Obtainable(r.worlds[Last(r)], name, workspace)
    ensures Disturbed(rely, t, Last(r), Last(t), name)
  {
    OthersThenChains(rely, r, s, t, []);
    if SameClaim(s.worlds[Last(s)], t.worlds[Last(t)], name) {
      HeldWasNotObtainable(rely, r, t, name, workspace);
    } else {
      ChangedWasDisturbed(rely, s, t, name);
      DisturbedStays(rely, t, Last(s), Last(t), t, Last(r), Last(t), name);
    }
  }

  predicate HeldBySomeone(w: World, organization: string, alias: string) {
    var name := ClaimName(organization, alias);
    && name in w.claims.objects && w.claims.objects[name].value.organization == organization
    && w.claims.objects[name].value.alias == alias && w.claims.objects[name].value.holder != ""
  }

  class AliasClaims {
    const cluster: Cluster
    const isAlias: string -> bool  // the DNS-label validator, a library function

    constructor (cluster: Cluster, isAlias: string -> bool)
      ensures this.cluster == cluster && this.isAlias == isAlias
    {
      this.cluster := cluster;
      this.isAlias := isAlias;
    }

    /** The workspace holding alias, read off the claim. A claim stored under a colliding
        name for another pair is not taken for an answer. */
    method Holder(organization: string, alias: string, ghost rely: Rely)
      returns (r: Result<Option<string>, ClaimError>)
      requires cluster.Valid()
      modifies cluster
      ensures cluster.Valid() && OthersThen(rely, old(cluster.run), cluster.run, [])
      ensures r.Ok? && r.value.Some? ==>
                && r.value.value != ""
                && exists name :: name in cluster.world.claims.objects
                     && cluster.world.claims.objects[name].value.organization == organization
                     && cluster.world.claims.objects[name].value.alias == alias
                     && cluster.world.claims.objects[name].value.holder == r.value.value
      ensures r == Ok(None) ==> !HeldBySomeone(cluster.world, organization, alias)
      ensures cluster.failed == (old(cluster.failed) || r.Err?)
    {
      var got := cluster.GetClaim(ClaimName(organization, alias), rely);
      if got == Err(NotFound) {
        return Ok(None);
      }
      if got.Err? {
        return Err(ApiFailure);
      }
      var claim := got.value.value;
      if claim.organization != organization || claim.alias != alias || claim.holder == "" {
        return Ok(None);
      }
      assert ClaimName(organization, alias) in cluster.world.claims.objects;
      r := Ok(Some(claim.holder));
    }

    method IsStale(claim: Claim, ghost rely: Rely) returns (r: Result<bool, ClaimError>)
      requires cluster.Valid()
      modifies cluster
      ensures cluster.Valid() && OthersThen(rely, old(cluster.run), cluster.run, [])
      ensures r.Ok? ==> r.value == Stale(cluster.world, claim)
      ensures cluster.failed == (old(cluster.failed) || r.Err?)
    {
      var now := cluster.Now(rely);
      if claim.claimedAt.Some? && now - claim.claimedAt.value < STALE_CLAIM_GRACE {
        return Ok(false);
      }
      if claim.holder == "" {
        return Ok(true);
      }
      ghost var before := cluster.run;
      var present := cluster.ReleaseExists(claim.holder, rely);
      OthersThenChains(rely, old(cluster.run), before, cluster.run, []);
      if present.Err? {
        return Err(ApiFailure);
      }
      RunEvolves(cluster.run, Last(before), Last(cluster.run));
      r := Ok(!present.value);
    }

    /** Takes alias for workspace. On success the workspace is the holder at that very
        moment; a refusal names another holder whose claim was read and then found not
        stale. At most one step is the caller's own, it is the last, and a failed call
        takes none: an alias the workspace already holds is never rewritten. What is free, its
        own or stale it gets, unless a call fails or somebody else gets in between. */
    method Claim(organization: string, alias: string, workspace: string, canonicalId: string, ghost rely: Rely)
      returns (r: Result<string, ClaimError>, ghost own: seq<Action>)
      requires cluster.Valid()
      requires workspace in cluster.world.ids && cluster.world.ids[workspace] == canonicalId
      modifies cluster
      ensures cluster.Valid() && OthersThen(rely, old(cluster.run), cluster.run, own)
      ensures |own| <= 1 && forall a <- own :: TakesClaim(a, organization, alias, workspace, canonicalId)
      ensures r.Err? ==> own == []
      ensures r.Ok? ==> r.value == ClaimName(organization, alias)
      ensures r.Ok? ==> r.value in cluster.world.claims.objects
                        && cluster.world.claims.objects[r.value].value.holder == workspace
      ensures r.Err? && r.error.Held? ==>
                && r.error.holder != workspace
                && exists g: nat, o :: Last(old(cluster.run)) <= g
                     && ReadAt(cluster.run, g, Last(cluster.run), ClaimName(organization, alias), o)
                     && o.value.holder == r.error.holder && !Stale(cluster.world, o.value)
      ensures r.Err? ==> r.error.Held? || r.error.ApiFailure? || r.error.TooManyClaimers?
      ensures r == Err(ApiFailure) ==> cluster.failed
      ensures r.Err? ==> || !Obtainable(old(cluster.world), ClaimName(organization, alias), workspace) || cluster.failed
                         || Disturbed(rely, cluster.run, Last(old(cluster.run)), Last(cluster.run), ClaimName(organization, alias))
      ensures old(cluster.failed) ==> cluster.failed
    {
      ghost var start := cluster.run;
      own := [];
      for attempt := 0 to CLAIM_ATTEMPTS
        invariant cluster.Valid() && OthersThen(rely, start, cluster.run, []) && own == []
        invariant workspace in cluster.world.ids && cluster.world.ids[workspace] == canonicalId
        invariant attempt > 0 ==> Disturbed(rely, cluster.run, Last(start), Last(cluster.run), ClaimName(organization, alias))
        invariant old(cluster.failed) ==> cluster.failed
      {
        ghost var before := cluster.run;
        var tried;
        tried, own := ClaimOnce(organization, alias, workspace, canonicalId, rely, start);
        OthersThenChains(rely, start, before, cluster.run, own);
        if tried.Some? {
          return tried.value, own;
        }
        DisturbedStays(rely, cluster.run, Last(before), Last(cluster.run), cluster.run, Last(start), Last(cluster.run),
                       ClaimName(organization, alias));
      }
      r := Err(TooManyClaimers);
    }

    /** One attempt; None when somebody got in between. */
    method ClaimOnce(organization: string, alias: string, workspace: string, canonicalId: string, ghost rely: Rely, ghost start: Run)
      returns (r: Option<Result<string, ClaimError>>, ghost own: seq<Action>)
      requires cluster.Valid() && Legal(start) && OthersThen(rely, start, cluster.run, [])
      requires workspace in cluster.world.ids && cluster.world.ids[workspace] == canonicalId
      modifies cluster
      ensures cluster.Valid() && OthersThen(rely, old(cluster.run), cluster.run, own)
      ensures |own| <= 1 && forall a <- own :: TakesClaim(a, organization, alias, workspace, canonicalId)
      ensures r.None? || r.value.Err? ==> own == []
      ensures r.None? ==> workspace in cluster.world.ids && cluster.world.ids[workspace] == canonicalId
      ensures r.Some? && r.value.Ok? ==>
                && r.value.value == ClaimName(organization, alias) && r.value.value in cluster.world.claims.objects
                && cluster.world.claims.objects[r.value.value].value.holder == workspace
      ensures r.Some? && r.value.Err? && r.value.error.Held? ==>
                && r.value.error.holder != workspace
                && exists g: nat, o :: Last(old(cluster.run)) <= g
                     && ReadAt(cluster.run, g, Last(cluster.run), ClaimName(organization, alias), o)
                     && o.value.holder == r.value.error.holder && !Stale(cluster.world, o.value)
      ensures r.Some? && r.value.Err? ==> r.value.error.Held? || (r.value.error.ApiFailure? && cluster.failed)
      ensures r.Some? && r.value.Err? && Obtainable(start.worlds[Last(start)], ClaimName(organization, alias), workspace) ==>
                || cluster.failed
                || Disturbed(rely, cluster.run, Last(start), Last(cluster.run), ClaimName(organization, alias))
      ensures r.None? ==> Disturbed(rely, cluster.run, Last(old(cluster.run)), Last(cluster.run), ClaimName(organization, alias))
      ensures old(cluster.failed) ==> cluster.failed
    {
      var name := ClaimName(organization, alias);
      ghost var r0 := cluster.run;
      var created;
      created, own := TryCreate(organization, alias, workspace, canonicalId, rely);
      if created.Done? {
        return Some(Ok(name)), own;
      }
      if !created.AlreadyExists? {
        return Some(Err(ApiFailure)), own;
      }
      ghost var r1 := cluster.run;
      var existing := cluster.GetClaim(name, rely);
      OthersThenChains(rely, r0, r1, cluster.run, []);
      SameIds(r1, cluster.run);
      if existing == Err(NotFound) {
        ChangedWasDisturbed(rely, r1, cluster.run, name);
        DisturbedStays(rely, cluster.run, Last(r1), Last(cluster.run), cluster.run, Last(r0), Last(cluster.run), name);
        return None, own;
      }
      if existing.Err? {
        return Some(Err(ApiFailure)), own;
      }
      if existing.value.value.holder == workspace {
        return Some(Ok(name)), own;
      }
      ghost var r2 := cluster.run;
      r, own := TakeOverIfStale(organization, alias, existing.value, workspace, canonicalId, rely);
      OthersThenChains(rely, r0, r2, cluster.run, own);
      if r.None? {
        DisturbedStays(rely, cluster.run, Last(r2), Last(cluster.run), cluster.run, Last(r0), Last(cluster.run), name);
      } else if r.value.Err? && r.value.error.Held? && Obtainable(start.worlds[Last(start)], name, workspace) {
        OthersThenChains(rely, start, r0, r2, []);
        Refused(rely, start, r2, cluster.run, name, workspace);
      }
    }

    /** The claim was just read and belongs to another workspace. */
    method TakeOverIfStale(organization: string, alias: string, seen: Object<Claim>, workspace: string, canonicalId: string,
                           ghost rely: Rely)
      returns (r: Option<Result<string, ClaimError>>, ghost own: seq<Action>)
      requires cluster.Valid() && Has(cluster.world.claims, ClaimName(organization, alias), seen) && seen.value.holder != workspace
      requires workspace in cluster.world.ids && cluster.world.ids[workspace] == canonicalId
      modifies cluster
      ensures cluster.Valid() && OthersThen(rely, old(cluster.run), cluster.run, own)
      ensures |own| <= 1 && forall a <- own :: TakesClaim(a, organization, alias, workspace, canonicalId)
      ensures r.None? || r.value.Err? ==> own == []
      ensures r.None? ==> workspace in cluster.world.ids && cluster.world.ids[workspace] == canonicalId
      ensures r.Some? && r.value.Ok? ==>
                && r.value.value == ClaimName(organization, alias) && r.value.value in cluster.world.claims.objects
                && cluster.world.claims.objects[r.value.value].value.holder == workspace
      ensures r.Some? && r.value.Err? ==>
                || (r.value.error.ApiFailure? && cluster.failed)
                || (r.value.error == Held(seen.value.holder) && !Stale(cluster.world, seen.value)
                    && ReadAt(cluster.run, Last(old(cluster.run)), Last(cluster.run), ClaimName(organization, alias), seen))
      ensures r.None? ==> Disturbed(rely, cluster.run, Last(old(cluster.run)), Last(cluster.run), ClaimName(organization, alias))
      ensures old(cluster.failed) ==> cluster.failed
    {
      var name := ClaimName(organization, alias);
      own := [];
      ghost var r2 := cluster.run;
      var stale := IsStale(seen.value, rely);
      SameIds(r2, cluster.run);
      if stale.Err? {
        return Some(Err(ApiFailure)), own;
      }
      assert ReadAt(cluster.run, Last(r2), Last(cluster.run), name, seen);
      if !stale.value {
        return Some(Err(Held(seen.value.holder))), own;
      }
      assert JudgedStale(cluster.run, Last(r2), Last(cluster.run), Last(cluster.run), name, seen);
      ghost var r3 := cluster.run;
      var taken;
      taken, own := TryTakeOver(organization, alias, seen, workspace, canonicalId, rely, Last(r2), Last(r3));
      OthersThenChains(rely, r2, r3, cluster.run, own);
      if taken.Done? {
        return Some(Ok(name)), own;
      }
      if taken.Failed? {
        return Some(Err(ApiFailure)), own;
      }
      ChangedWasDisturbed(rely, r2, cluster.run, name);
      r := None;
    }

    method TryCreate(organization: string, alias: string, workspace: string, canonicalId: string, ghost rely: Rely)
      returns (o: Outcome, ghost own: seq<Action>)
      requires cluster.Valid()
      requires workspace in cluster.world.ids && cluster.world.ids[workspace] == canonicalId
      modifies cluster
      ensures cluster.Valid() && OthersThen(rely, old(cluster.run), cluster.run, own)
      ensures workspace in cluster.world.ids && cluster.world.ids[workspace] == canonicalId
      ensures |own| == if o.Done? then 1 else 0
      ensures forall a <- own :: TakesClaim(a, organization, alias, workspace, canonicalId)
      ensures o.Done? ==> ClaimName(organization, alias) in cluster.world.claims.objects
                          && cluster.world.claims.objects[ClaimName(organization, alias)].value.holder == workspace
      ensures o.Done? || o.AlreadyExists? || o.Failed?
      ensures o.AlreadyExists? ==> ClaimName(organization, alias) in cluster.world.claims.objects
      ensures cluster.failed == (old(cluster.failed) || o.Failed?)
    {
      AlwaysConsistent(cluster.run, Last(cluster.run));
      ghost var r0 := cluster.run;
      var now := cluster.Now(rely);
      SameIds(r0, cluster.run);
      var claim := NewClaim(organization, alias, workspace, canonicalId, now);
      assert StampedAt(cluster.run, Last(cluster.run), claim);
      ghost var r1 := cluster.run;
      o := cluster.CreateClaim(ClaimName(organization, alias), claim, rely);
      own := if o.Done? then [ClaimCreated(ClaimName(organization, alias), claim)] else [];
      OthersThenChains(rely, r0, r1, cluster.run, own);
      SameIds(r1, cluster.run);
    }

    method TryTakeOver(organization: string, alias: string, seen: Object<Claim>, workspace: string,
                       canonicalId: string, ghost rely: Rely, ghost g: nat, ghost m: nat)
      returns (o: Outcome, ghost own: seq<Action>)
      requires cluster.Valid() && seen.value.holder != workspace
      requires workspace in cluster.world.ids && cluster.world.ids[workspace] == canonicalId
      requires JudgedStale(cluster.run, g, m, Last(cluster.run), ClaimName(organization, alias), seen)
      modifies cluster
      ensures cluster.Valid() && OthersThen(rely, old(cluster.run), cluster.run, own)
      ensures workspace in cluster.world.ids && cluster.world.ids[workspace] == canonicalId
      ensures |own| == if o.Done? then 1 else 0
      ensures forall a <- own :: TakesClaim(a, organization, alias, workspace, canonicalId)
      ensures o.Done? ==> ClaimName(organization, alias) in cluster.world.claims.objects
                          && cluster.world.claims.objects[ClaimName(organization, alias)].value.holder == workspace
      ensures !o.Done? && !o.Failed? ==> !AtVersion(cluster.world.claims, ClaimName(organization, alias), seen.version)
      ensures cluster.failed == (old(cluster.failed) || o.Failed?)
    {
      AlwaysConsistent(cluster.run, Last(cluster.run));
      ghost var r0 := cluster.run;
      var now := cluster.Now(rely);
      SameIds(r0, cluster.run);
      var claim := NewClaim(organization, alias, workspace, canonicalId, now);
      assert StampedAt(cluster.run, Last(cluster.run), claim);
      assert JudgedStale(cluster.run, g, m, Last(cluster.run), ClaimName(organization, alias), seen);
      ghost var r1 := cluster.run;
      o := cluster.TakeOverClaim(ClaimName(organization, alias), seen, claim, rely, Last(r1), g, m);
      own := if o.Done? then [ClaimTakenOver(ClaimName(organization, alias), seen, claim)] else [];
      OthersThenChains(rely, r0, r1, cluster.run, own);
      SameIds(r1, cluster.run);
    }

    /** Deletes one listed claim, unless someone rewrote it since it was listed. */
    method Drop(name: string, version: nat, workspace: string, canonicalId: string, ghost keep: string,
                ghost g: nat, ghost c: Object<Claim>)
      returns (failed: bool)
      requires cluster.Valid() && name != keep
      requires ReadAt(cluster.run, g, Last(cluster.run), name, c)
      requires c.version == version && c.value.canonicalId == canonicalId
      modifies cluster
      ensures cluster.Valid() && Extends(old(cluster.run), cluster.run)
      ensures ReleasesOnly(cluster.run, Last(old(cluster.run)), Last(cluster.run), workspace, canonicalId, keep)
      ensures SubMap(Mine(cluster.world, canonicalId), Mine(old(cluster.world), canonicalId))
      ensures !failed ==> !AtVersion(cluster.world.claims, name, version)
      ensures cluster.failed == (old(cluster.failed) || failed)
    {
      ghost var before, w := cluster.run, cluster.world;
      var deleted := cluster.DeleteClaim(name, version, canonicalId, UnderLock(workspace, canonicalId), g, c);
      ghost var j := if deleted.Done? then Last(cluster.run) - 1 else Last(cluster.run);
      assert deleted.Done? ==> cluster.run.actions[j..] == [cluster.run.actions[j]];
      OthersShrinkMine(cluster.run, Last(before), j, workspace, canonicalId);
      assert deleted.Done? ==> LegalStep(cluster.run, j);
      assert cluster.run.worlds[Last(before)] == w;
      failed := deleted.Failed?;
    }

    /** Deletes every claim of the workspace except keep; failed reports an API error. */
    method Release(workspace: string, canonicalId: string, keep: string) returns (failed: bool)
      requires cluster.Valid()
      modifies cluster
      ensures cluster.Valid() && Extends(old(cluster.run), cluster.run)
      ensures ReleasesOnly(cluster.run, Last(old(cluster.run)), Last(cluster.run), workspace, canonicalId, keep)
      ensures SubMap(Mine(cluster.world, canonicalId), Mine(old(cluster.world), canonicalId))
      ensures !failed ==> Mine(cluster.world, canonicalId).Keys <= {keep}
      ensures cluster.failed == (old(cluster.failed) || failed)
    {
      ghost var start := Last(cluster.run);
      var listed := cluster.ListClaims(canonicalId, UnderLock(workspace, canonicalId));
      OthersShrinkMine(cluster.run, start, Last(cluster.run), workspace, canonicalId);
      if listed.Err? {
        return true;
      }
      var items := listed.value;
      ghost var g, seen := Last(cluster.run), Mine(cluster.world, canonicalId);
      failed := false;
      for i := 0 to |items|
        invariant cluster.Valid() && Extends(old(cluster.run), cluster.run) && g <= Last(cluster.run)
        invariant ReleasesOnly(cluster.run, start, Last(cluster.run), workspace, canonicalId, keep)
        invariant Mine(cluster.run.worlds[g], canonicalId) == seen
        invariant Remaining(Mine(cluster.world, canonicalId), seen, keep, failed, items[i..])
        invariant cluster.failed == (old(cluster.failed) || failed)
      {
        var (name, version) := items[i];
        assert items[i] in items && items[i..][1..] == items[i + 1..];
        ghost var mine := Mine(cluster.world, canonicalId);
        if name != keep {
          assert ReadAt(cluster.run, g, Last(cluster.run), name, seen[name]);
          ghost var before := cluster.run;
          var broken := Drop(name, version, workspace, canonicalId, keep, g, seen[name]);
          ReleasesOnlyChains(before, start, cluster.run, workspace, canonicalId, keep);
          failed := failed || broken;
        }
        RemainingNext(mine, Mine(cluster.world, canonicalId), seen, keep, failed, items[i..]);
      }
    }

    /** Makes the workspace hold exactly the claim for desired (none for "") and reports the
        alias to apply; a contested or invalid alias is not an error. When nothing failed no
        claim of the workspace but that one is left. */
    method Reconcile(organization: string, workspace: string, canonicalId: string, desired: string)
      returns (applied: string, message: Message, err: Option<ClaimError>, ghost unreleased: bool)
      requires cluster.Valid()
      requires workspace in cluster.world.ids && cluster.world.ids[workspace] == canonicalId
      modifies cluster
      ensures cluster.Valid() && Extends(old(cluster.run), cluster.run)
      ensures ClaimsThenReleases(cluster.run, Last(old(cluster.run)), Last(cluster.run), organization, desired, workspace,
                                 canonicalId, if applied == "" then "" else ClaimName(organization, applied))
      ensures err.None? && !unreleased ==>
                Mine(cluster.world, canonicalId).Keys <= if applied == "" then {} else {ClaimName(organization, applied)}
      ensures applied != "" ==> err.None? && applied == desired && isAlias(desired)
                                && exists m: nat :: Last(old(cluster.run)) <= m <= Last(cluster.run)
                                     && HoldsAt(cluster.run, m, ClaimName(organization, desired), workspace)
      ensures err.None? && applied == "" ==>
                (desired == "" && message.NoMessage?)
                || (desired != "" && !isAlias(desired) && message.NotALabel?)
                || (desired != "" && isAlias(desired) && message.HeldBy? && message.holder != workspace)
      ensures unreleased ==> cluster.failed
      ensures desired != "" && isAlias(desired) && Obtainable(old(cluster.world), ClaimName(organization, desired), workspace) ==>
                || applied == desired || cluster.failed
                || Disturbed(UnderLock(workspace, canonicalId), cluster.run, Last(old(cluster.run)), Last(cluster.run),
                             ClaimName(organization, desired))
    {
      var keep := "";
      applied, message, err, unreleased := "", NoMessage, None, false;
      ghost var own: seq<Action> := [];
      ghost var start := cluster.run;
      if desired == "" {
      } else if !isAlias(desired) {
        message := NotALabel;
      } else {
        var claimed;
        claimed, own := Claim(organization, desired, workspace, canonicalId, UnderLock(workspace, canonicalId));
        if claimed.Ok? {
          applied, keep := desired, claimed.value;
          assert HoldsAt(cluster.run, Last(cluster.run), ClaimName(organization, desired), workspace);
        } else if claimed.error.Held? {
          message := HeldBy(claimed.error.holder);
        } else {
          ClaimsOnceStays(UnderLock(workspace, canonicalId), start, cluster.run, cluster.run, own,
                          organization, desired, workspace, canonicalId);
          return "", NoMessage, Some(claimed.error), false;
        }
      }
      ghost var at := Last(cluster.run);
      ghost var r := cluster.run;
      var failed := Release(workspace, canonicalId, keep);
      if message.HeldBy? && Disturbed(UnderLock(workspace, canonicalId), r, Last(start), Last(r), ClaimName(organization, desired)) {
        DisturbedStays(UnderLock(workspace, canonicalId), r, Last(start), Last(r), cluster.run, Last(start), Last(cluster.run),
                       ClaimName(organization, desired));
      }
      ClaimsOnceStays(UnderLock(workspace, canonicalId), start, r, cluster.run, own,
                      organization, desired, workspace, canonicalId);
      unreleased := failed;
      if applied != "" {
        assert HoldsAt(cluster.run, at, ClaimName(organization, desired), workspace);
      }
      AlwaysConsistent(cluster.run, Last(cluster.run));
    }
  }

  /** A claim left over from before can be lost while its workspace is provisioned again:
      claiming it does not refresh claimedAt, so the grace has passed, and a replica that
      judged it stale before the release was installed may still take it over after. */
  lemma LeftoverClaimIsNotProtected() returns (run: Run, name: string)
    ensures Legal(run) && Last(run) == 2
    ensures HoldsAt(run, 0, name, "w") && HoldsAt(run, 1, name, "w") && HoldsAt(run, 2, name, "x")
    ensures "w" in run.worlds[1].releases && "w" in run.worlds[2].releases
    ensures forall k :: 0 <= k < 2 ==> !GivesUp(run.actions[k], name, "w")
  {
    name := ClaimName("o", "a");
    var seen := Object(Claim("o", "a", "w", "w", Some(0)), 0);
    var w0 := World(Store(map[name := seen], 1), {}, map[], STALE_CLAIM_GRACE, map["w" := "w", "x" := "x"]);
    var a0 := ReleaseInstalled("w");
    var w1 := Apply(w0, a0);
    var a1 := ClaimTakenOver(name, seen, NewClaim("o", "a", "x", "x", w1.now));
    run := History([w0, w1, Apply(w1, a1)], [a0, a1]);
    assert StampedAt(run, 1, a1.claim);
    assert JudgedStale(run, 0, 0, 1, name, seen);
    assert w0.ids["x"] == "x";
    assert LegalStep(run, 0) && LegalStep(run, 1);
  }

  /** The step in which x, as things are at the end of the run, takes the claim o over. */
  ghost function TakeOver(run: Run, name: string, o: Object<Claim>, x: string): Action
    requires |run.worlds| == |run.actions| + 1 && x in run.worlds[Last(run)].ids
  {
    var w := run.worlds[Last(run)];
    ClaimTakenOver(name, o, NewClaim(o.value.organization, o.value.alias, x, w.ids[x], w.now))
  }

  /** Any workspace can take a claim over, and thereby end it, exactly when it stood stale at
      some moment up to now, however much its holder has done since to be alive again. */
  lemma TakeOverIffLapsed(run: Run, name: string, o: Object<Claim>, x: string)
    requires Legal(run) && Has(run.worlds[Last(run)].claims, name, o)
    requires x in run.worlds[Last(run)].ids
    ensures Legal(With(run, TakeOver(run, name, o, x))) <==> LapsedBy(run, Last(run), name, o)
    ensures !Has(With(run, TakeOver(run, name, o, x)).worlds[Last(run) + 1].claims, name, o)
    ensures HoldsAt(With(run, TakeOver(run, name, o, x)), Last(run) + 1, name, x)
  {
    var k, a := Last(run), TakeOver(run, name, o, x);
    var s := With(run, a);
    AlwaysConsistent(run, k);
    if LapsedBy(run, k, name, o) {
      var m: nat :| m <= k && LapsedAt(run, m, name, o);
      assert StampedAt(run, k, a.claim);
      assert JudgedStale(run, m, m, k, name, o);
      LegalWithStep(run, a);
    }
    if Legal(s) {
      assert !Has(s.worlds[k + 1].claims, name, o);
      ClaimChangesOnly(s, k, name, o);
      var m: nat :| m <= k && LapsedAt(s, m, name, o);
      assert LapsedAt(run, m, name, o);
    }
  }

  /** Why an update asks for more than an installed release: its workspace's claims are all
      safe from a take-over exactly when none of them ever stood stale. */
  lemma StandingIffSafe(run: Run, workspace: string, canonicalId: string, x: string)
    requires Legal(run) && x in run.worlds[Last(run)].ids
    requires workspace in run.worlds[Last(run)].ids && run.worlds[Last(run)].ids[workspace] == canonicalId
    requires workspace in run.worlds[Last(run)].releases
    ensures Standing(run, Last(run), workspace, canonicalId) <==>
            forall name, o :: Has(run.worlds[Last(run)].claims, name, o) && o.value.canonicalId == canonicalId
                              ==> !Legal(With(run, TakeOver(run, name, o, x)))
  {
    forall name, o | Has(run.worlds[Last(run)].claims, name, o)
      ensures Legal(With(run, TakeOver(run, name, o, x))) <==> LapsedBy(run, Last(run), name, o)
    {
      TakeOverIffLapsed(run, name, o, x);
    }
  }

  ghost predicate HoldsAt(run: Run, m: nat, name: string, workspace: string) {
    && m < |run.worlds| && name in run.worlds[m].claims.objects
    && run.worlds[m].claims.objects[name].value.holder == workspace
  }

  lemma SameIds(r: Run, s: Run)
    requires Legal(s) && Legal(r) && Extends(r, s)
    ensures r.worlds[Last(r)].ids == s.worlds[Last(s)].ids
  {
    AlwaysConsistent(r, Last(r));
    AlwaysConsistent(s, Last(s));
    assert r.worlds[0] == s.worlds[0];
  }
}
