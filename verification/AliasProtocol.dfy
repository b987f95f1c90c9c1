/** Web-proxy alias claims as a protocol (internal/workspace/alias.go).

    A claim is a ConfigMap named after (organization, alias). A run is any
    interleaving of claim, take-over, release and sweep steps by any number of
    workspaces, with a ticking clock and Helm releases that come and go. A step that
    the code takes on the strength of an earlier reading is allowed only when the run
    really contains that reading; nothing else is assumed about what happened since. */
module AliasProtocol {
  import opened Prelude
  import opened Runs
  import opened ApiServer

  const SECOND: nat := 1_000_000_000
  const STALE_CLAIM_GRACE: nat := 5 * 60 * SECOND

  /** claimedAt is None when the stored text does not parse as a time. */
  datatype Claim = Claim(organization: string, alias: string, holder: string, canonicalId: string,
                         claimedAt: Option<int>)

  /** The metadata of a workspace pod the alias code reads; port is the
      web-proxy port annotation, None when absent or empty. */
  datatype Pod = Pod(organization: string, alias: string, port: Option<int>)

  /** ids gives every workspace its canonical id; it never changes. */
  datatype World = World(claims: Store<Claim>, releases: set<string>, pods: map<string, Pod>, now: nat,
                         ids: map<string, string>)

  datatype Action =
    | Tick(elapsed: nat)
    | ReleaseInstalled(workspace: string)
    | ReleaseRemoved(workspace: string)
    | PodWritten(workspace: string, pod: Pod)
    | PodGone(workspace: string)
    | ClaimCreated(name: string, claim: Claim)
    | ClaimTakenOver(name: string, seen: Object<Claim>, claim: Claim)
    | ClaimDeleted(name: string, version: nat, canonicalId: string)
    | ClaimsSwept(canonicalId: string)

  type Run = History<World, Action>

  /** The ConfigMap name is a hash of this key; the hash is taken to be collision-free. */
  function ClaimName(organization: string, alias: string): string {
    organization + "/" + alias
  }

  /** RFC 3339 keeps whole seconds. */
  function Stamp(now: nat): int {
    now - now % SECOND
  }

  predicate PastGrace(now: nat, claim: Claim) {
    claim.claimedAt.Some? ==> now - claim.claimedAt.value >= STALE_CLAIM_GRACE
  }

  predicate Stale(w: World, claim: Claim) {
    PastGrace(w.now, claim) && (claim.holder == "" || claim.holder !in w.releases)
  }

  // ---- steps ----

  predicate Enabled(w: World, a: Action) {
    match a
    case ClaimCreated(name, _) => name != "" && name !in w.claims.objects
    case ClaimTakenOver(name, seen, _) => AtVersion(w.claims, name, seen.version)
    case ClaimDeleted(name, version, _) => AtVersion(w.claims, name, version)
    case _ => true
  }

  function Sweep(s: Store<Claim>, canonicalId: string): Store<Claim> {
    s.(objects := map name | name in s.objects && s.objects[name].value.canonicalId != canonicalId :: s.objects[name])
  }

  function Apply(w: World, a: Action): World {
    match a
    case Tick(elapsed) => w.(now := w.now + elapsed)
    case ReleaseInstalled(workspace) => w.(releases := w.releases + {workspace})
    case ReleaseRemoved(workspace) => w.(releases := w.releases - {workspace})
    case PodWritten(workspace, pod) => w.(pods := w.pods[workspace := pod])
    case PodGone(workspace) => w.(pods := w.pods - {workspace})
    case ClaimCreated(name, claim) => w.(claims := Put(w.claims, name, claim))
    case ClaimTakenOver(name, _, claim) => w.(claims := Put(w.claims, name, claim))
    case ClaimDeleted(name, _, _) => w.(claims := Remove(w.claims, name))
    case ClaimsSwept(canonicalId) => w.(claims := Sweep(w.claims, canonicalId))
  }

  ghost predicate Injective(ids: map<string, string>) {
    forall a <- ids, b <- ids :: ids[a] == ids[b] ==> a == b
  }

  /** A claim carries its holder's canonical id; one without a holder carries nobody's. */
  predicate WellOwned(ids: map<string, string>, claim: Claim) {
    if claim.holder == "" then claim.canonicalId !in ids.Values
    else claim.holder in ids && ids[claim.holder] == claim.canonicalId
  }

  ghost predicate Consistent(w: World) {
    && "" !in w.ids
    && Injective(w.ids)
    && VersionsUsed(w.claims)
    && "" !in w.claims.objects
    && forall name <- w.claims.objects :: WellOwned(w.ids, w.claims.objects[name].value)
  }

  /** The claim was stamped with a time read from the clock at moment m. */
  ghost predicate StampedAt(run: Run, m: nat, claim: Claim) {
    m < |run.worlds| && claim.claimedAt == Some(Stamp(run.worlds[m].now))
  }

  /** What the caller must have read, at this moment or before, to take the step:
      a new claim is stamped from the clock; a claim is taken over once it was read at
      moment g and judged stale at moment m; a claim is deleted once it was listed. */
  ghost predicate ReadAt(run: Run, g: nat, k: nat, name: string, o: Object<Claim>) {
    g <= k < |run.worlds| && Has(run.worlds[g].claims, name, o)
  }

  ghost predicate JudgedStale(run: Run, g: nat, m: nat, k: nat, name: string, o: Object<Claim>) {
    g <= m <= k < |run.worlds| && ReadAt(run, g, k, name, o) && Stale(run.worlds[m], o.value)
  }

  ghost predicate Justified(run: Run, k: nat, a: Action)
    requires k < |run.worlds|
  {
    match a
    case ClaimCreated(_, claim) =>
      WellOwned(run.worlds[k].ids, claim) && exists m: nat :: m <= k && StampedAt(run, m, claim)
    case ClaimTakenOver(name, seen, claim) =>
      && WellOwned(run.worlds[k].ids, claim)
      && (exists m: nat :: m <= k && StampedAt(run, m, claim))
      && (exists g: nat, m: nat :: JudgedStale(run, g, m, k, name, seen))
    case ClaimDeleted(name, version, canonicalId) =>
      exists g: nat, o :: ReadAt(run, g, k, name, o) && o.version == version && o.value.canonicalId == canonicalId
    case _ => true
  }

  ghost predicate LegalStep(run: Run, k: nat)
    requires k < |run.actions| && |run.worlds| == |run.actions| + 1
  {
    && Enabled(run.worlds[k], run.actions[k])
    && Justified(run, k, run.actions[k])
    && run.worlds[k + 1] == Apply(run.worlds[k], run.actions[k])
  }

  ghost predicate Legal(run: Run) {
    && |run.worlds| == |run.actions| + 1
    && Consistent(run.worlds[0])
    && forall k :: 0 <= k < |run.actions| ==> LegalStep(run, k)
  }

  // ---- every run ----

  lemma StepEvolves(w: World, a: Action)
    requires VersionsUsed(w.claims) && Enabled(w, a)
    ensures Evolves(w.claims, Apply(w, a).claims)
  {
  }

  lemma {:induction false} RunEvolves(run: Run, i: nat, j: nat)
    requires Legal(run) && i <= j < |run.worlds|
    ensures Evolves(run.worlds[i].claims, run.worlds[j].claims) && VersionsUsed(run.worlds[i].claims)
    ensures run.worlds[i].now <= run.worlds[j].now
    decreases j
  {
    if j == 0 {
    } else if i == j {
      RunEvolves(run, 0, j - 1);
      assert LegalStep(run, j - 1);
      StepEvolves(run.worlds[j - 1], run.actions[j - 1]);
    } else {
      RunEvolves(run, i, j - 1);
      assert LegalStep(run, j - 1);
      StepEvolves(run.worlds[j - 1], run.actions[j - 1]);
      EvolvesTransitive(run.worlds[i].claims, run.worlds[j - 1].claims, run.worlds[j].claims);
    }
  }

  lemma {:induction false} AlwaysConsistent(run: Run, k: nat)
    requires Legal(run) && k < |run.worlds|
    ensures Consistent(run.worlds[k]) && run.worlds[k].ids == run.worlds[0].ids
  {
    if k > 0 {
      AlwaysConsistent(run, k - 1);
      assert LegalStep(run, k - 1);
      StepEvolves(run.worlds[k - 1], run.actions[k - 1]);
    }
  }

  /** The holder's own ways of giving a claim up: its release, or the sweep of its uninstall. */
  predicate GivesUp(a: Action, name: string, canonicalId: string) {
    || (a.ClaimDeleted? && a.name == name && a.canonicalId == canonicalId)
    || (a.ClaimsSwept? && a.canonicalId == canonicalId)
  }

  /** At some moment up to k the claim stood, past its grace, with its holder's release absent. */
  ghost predicate LapsedAt(run: Run, m: nat, name: string, o: Object<Claim>) {
    m < |run.worlds| && Has(run.worlds[m].claims, name, o) && Stale(run.worlds[m], o.value)
  }

  ghost predicate LapsedBy(run: Run, k: nat, name: string, o: Object<Claim>) {
    exists m: nat :: m <= k && LapsedAt(run, m, name, o)
  }

  /** A claim disappears or changes in a step only if its own holder gave it up, or it was
      taken over after having really stood stale: the compare-and-swap makes the earlier
      reading still true. */
  lemma ClaimChangesOnly(run: Run, k: nat, name: string, o: Object<Claim>)
    requires Legal(run) && k < |run.actions|
    requires Has(run.worlds[k].claims, name, o) && !Has(run.worlds[k + 1].claims, name, o)
    ensures
      || GivesUp(run.actions[k], name, o.value.canonicalId)
      || (run.actions[k].ClaimTakenOver? && run.actions[k].name == name && LapsedBy(run, k, name, o))
  {
    assert LegalStep(run, k);
    match run.actions[k]
    case ClaimTakenOver(taken, seen, _) =>
      var g: nat, m: nat :| JudgedStale(run, g, m, k, taken, seen);
      RunEvolves(run, g, m);
      RunEvolves(run, m, k);
      SameVersionSameObject(run.worlds[g].claims, run.worlds[m].claims, run.worlds[k].claims, taken, seen);
      assert LapsedAt(run, m, name, o);
    case ClaimDeleted(deleted, version, canonicalId) =>
      var g: nat, seen :| ReadAt(run, g, k, deleted, seen) && seen.version == version && seen.value.canonicalId == canonicalId;
      RunEvolves(run, g, k);
      RunEvolves(run, k, k);
      SameVersionSameObject(run.worlds[g].claims, run.worlds[k].claims, run.worlds[k].claims, deleted, seen);
    case _ =>
  }

  /** A claim that never stood stale and that its holder did not give up is still there,
      unchanged, in every interleaving. */
  lemma {:induction false} LiveHolderKeepsClaim(run: Run, i: nat, j: nat, name: string, o: Object<Claim>)
    requires Legal(run) && i <= j < |run.worlds|
    requires Has(run.worlds[i].claims, name, o)
    requires forall k :: i <= k < j ==> !GivesUp(run.actions[k], name, o.value.canonicalId)
    requires forall m: nat :: m < j ==> !LapsedAt(run, m, name, o)
    ensures Has(run.worlds[j].claims, name, o)
    decreases j
  {
    if i < j {
      LiveHolderKeepsClaim(run, i, j - 1, name, o);
      if !Has(run.worlds[j].claims, name, o) {
        ClaimChangesOnly(run, j - 1, name, o);
      }
    }
  }

  /** The workspace took the claim at moment i, did not give it up, and its release was
      present whenever the claim stood past its grace. */
  ghost predicate HoldsSince(run: Run, i: nat, j: nat, name: string, o: Object<Claim>) {
    && i <= j < |run.worlds|
    && |run.worlds| == |run.actions| + 1
    && Has(run.worlds[i].claims, name, o)
    && (forall k :: i <= k < j ==> !GivesUp(run.actions[k], name, o.value.canonicalId))
    && (forall m: nat :: m <= j && Has(run.worlds[m].claims, name, o) && PastGrace(run.worlds[m].now, o.value)
                    ==> o.value.holder != "" && o.value.holder in run.worlds[m].releases)
  }

  /** Two workspaces that both still count on an (organization, alias) are one workspace. */
  lemma OneLiveHolder(run: Run, i1: nat, o1: Object<Claim>, i2: nat, o2: Object<Claim>, j: nat, name: string)
    requires Legal(run)
    requires HoldsSince(run, i1, j, name, o1) && HoldsSince(run, i2, j, name, o2)
    ensures o1 == o2 && Has(run.worlds[j].claims, name, o1)
  {
    LiveHolderKeepsClaim(run, i1, j, name, o1);
    LiveHolderKeepsClaim(run, i2, j, name, o2);
  }

  // ---- what one workspace holds while it has its workspace lock ----

  /** Who the other steps of a run may come from. While a workspace's lock is held, nobody
      else installs or removes its release, writes its pod or writes claims for it. */
  datatype Rely = Anyone | UnderLock(workspace: string, canonicalId: string)

  predicate ByOthers(rely: Rely, a: Action) {
    rely.UnderLock? ==>
      match a
      case ReleaseInstalled(workspace) => workspace != rely.workspace
      case ReleaseRemoved(workspace) => workspace != rely.workspace
      case PodWritten(workspace, _) => workspace != rely.workspace
      case ClaimCreated(_, claim) => claim.canonicalId != rely.canonicalId
      case ClaimTakenOver(_, _, claim) => claim.canonicalId != rely.canonicalId
      case ClaimDeleted(_, _, canonicalId) => canonicalId != rely.canonicalId
      case ClaimsSwept(canonicalId) => canonicalId != rely.canonicalId
      case _ => true
  }

  ghost predicate OthersOnly(rely: Rely, run: Run, i: nat, j: nat) {
    i <= j <= |run.actions| && forall k :: i <= k < j ==> ByOthers(rely, run.actions[k])
  }

  function Mine(w: World, canonicalId: string): map<string, Object<Claim>> {
    map name | name in w.claims.objects && w.claims.objects[name].value.canonicalId == canonicalId
      :: w.claims.objects[name]
  }

  predicate SubMap<T(==)>(a: map<string, T>, b: map<string, T>) {
    forall name <- a :: name in b && b[name] == a[name]
  }

  /** The workspace's release is installed and none of its claims ever stood stale. */
  ghost predicate Standing(run: Run, k: nat, workspace: string, canonicalId: string) {
    && k < |run.worlds|
    && workspace in run.worlds[k].ids && run.worlds[k].ids[workspace] == canonicalId
    && workspace in run.worlds[k].releases
    && forall name, o :: Has(run.worlds[k].claims, name, o) && o.value.canonicalId == canonicalId
                         ==> !LapsedBy(run, k, name, o)
  }

  lemma HeldByMe(w: World, workspace: string, canonicalId: string, name: string)
    requires Consistent(w) && workspace in w.ids && w.ids[workspace] == canonicalId
    requires name in w.claims.objects
    ensures w.claims.objects[name].value.canonicalId == canonicalId
       <==> w.claims.objects[name].value.holder == workspace
  {
    assert WellOwned(w.ids, w.claims.objects[name].value);
  }

  /** A claim standing at k + 1 without having lapsed by k has not lapsed by k + 1 while
      its holder's release is there. */
  lemma StandingStep(run: Run, k: nat, workspace: string, canonicalId: string)
    requires Legal(run) && k < |run.actions|
    requires Standing(run, k, workspace, canonicalId)
    requires workspace in run.worlds[k + 1].releases
    ensures Standing(run, k + 1, workspace, canonicalId)
  {
    var j := k + 1;
    AlwaysConsistent(run, k);
    AlwaysConsistent(run, j);
    forall name, o | Has(run.worlds[j].claims, name, o) && o.value.canonicalId == canonicalId
      ensures !LapsedBy(run, j, name, o)
    {
      HeldByMe(run.worlds[j], workspace, canonicalId, name);
      if LapsedBy(run, j, name, o) {
        var m: nat :| m <= j && LapsedAt(run, m, name, o);
        RunEvolves(run, m, k);
        RunEvolves(run, k, j);
        SameVersionSameObject(run.worlds[m].claims, run.worlds[k].claims, run.worlds[j].claims, name, o);
        assert LapsedBy(run, k, name, o);
        assert false;
      }
    }
  }

  lemma OthersStepShrinksMine(run: Run, k: nat, workspace: string, canonicalId: string)
    requires Legal(run) && k < |run.actions|
    requires ByOthers(UnderLock(workspace, canonicalId), run.actions[k])
    ensures SubMap(Mine(run.worlds[k + 1], canonicalId), Mine(run.worlds[k], canonicalId))
  {
    assert LegalStep(run, k);
  }

  /** Without its lock nobody adds to a workspace's claims. */
  lemma {:induction false} OthersShrinkMine(run: Run, i: nat, j: nat, workspace: string, canonicalId: string)
    requires Legal(run) && OthersOnly(UnderLock(workspace, canonicalId), run, i, j)
    ensures SubMap(Mine(run.worlds[j], canonicalId), Mine(run.worlds[i], canonicalId))
    decreases j
  {
    if i < j {
      OthersShrinkMine(run, i, j - 1, workspace, canonicalId);
      OthersStepShrinksMine(run, j - 1, workspace, canonicalId);
    }
  }

  /** Under its lock, with its release installed, a workspace keeps exactly its claims
      whatever the others do, and its pod is untouched unless it disappears. */
  lemma {:induction false} OthersKeepMine(run: Run, i: nat, j: nat, workspace: string, canonicalId: string)
    requires Legal(run) && OthersOnly(UnderLock(workspace, canonicalId), run, i, j)
    requires Standing(run, i, workspace, canonicalId)
    ensures Standing(run, j, workspace, canonicalId)
    ensures Mine(run.worlds[j], canonicalId) == Mine(run.worlds[i], canonicalId)
    ensures workspace in run.worlds[j].pods ==>
              workspace in run.worlds[i].pods && run.worlds[j].pods[workspace] == run.worlds[i].pods[workspace]
    decreases j
  {
    if i < j {
      OthersKeepMine(run, i, j - 1, workspace, canonicalId);
      assert ByOthers(UnderLock(workspace, canonicalId), run.actions[j - 1]);
      assert LegalStep(run, j - 1);
      StandingStep(run, j - 1, workspace, canonicalId);
      OthersStepShrinksMine(run, j - 1, workspace, canonicalId);
      var before, after := Mine(run.worlds[j - 1], canonicalId), Mine(run.worlds[j], canonicalId);
      forall name | name in before
        ensures name in after
      {
        var o := before[name];
        assert Has(run.worlds[j - 1].claims, name, o);
        if !Has(run.worlds[j].claims, name, o) {
          ClaimChangesOnly(run, j - 1, name, o);
        }
      }
      assert after == before;
    }
  }

  function FirstSlash(s: string): nat {
    if s == "" || s[0] == '/' then 0 else 1 + FirstSlash(s[1..])
  }

  lemma {:induction false} FirstSlashEndsOrganization(organization: string, rest: string)
    requires '/' !in organization
    ensures FirstSlash(organization + "/" + rest) == |organization|
  {
    if organization == "" {
      assert ("" + "/" + rest)[0] == '/';
    } else {
      FirstSlashEndsOrganization(organization[1..], rest);
      assert (organization + "/" + rest)[1..] == organization[1..] + "/" + rest;
    }
  }

  /** The hashed key tells any two (organization, alias) pairs apart, because an
      organization name, being a label value, has no slash. */
  lemma ClaimNameInjective(org1: string, alias1: string, org2: string, alias2: string)
    requires '/' !in org1 && '/' !in org2
    requires ClaimName(org1, alias1) == ClaimName(org2, alias2)
    ensures org1 == org2 && alias1 == alias2
  {
    FirstSlashEndsOrganization(org1, alias1);
    FirstSlashEndsOrganization(org2, alias2);
    var n := ClaimName(org1, alias1);
    assert n[..|org1|] == org1 && n[..|org2|] == org2;
    assert n[|org1| + 1..] == alias1 && n[|org2| + 1..] == alias2;
  }
}
