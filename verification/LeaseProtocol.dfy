/** The workspace lock as a protocol (internal/workspace/lock.go): one Lease object, any
    number of instances that create it, take it over once it expired, renew it, and delete
    it on release. All instances read one clock; every instance has its own holder id. */
module LeaseProtocol {
  import opened Prelude
  import opened Runs
  import opened ApiServer

  const SECOND: nat := 1_000_000  // MicroTime keeps microseconds
  const LEASE_DURATION: nat := 30 * SECOND
  const LEASE: string := "workspace-lease"

  datatype Lease = Lease(holder: Option<string>, duration: Option<int>, acquired: Option<int>, renewed: Option<int>)

  /** counted is what the instances believe: the renew time an instance last wrote, until
      its release deletes the lease. */
  datatype World = World(leases: Store<Lease>, counted: map<string, int>, now: nat)

  datatype Action =
    | Tick(elapsed: nat)
    | Created(who: string, stamp: nat)
    | TakenOver(who: string, seen: Object<Lease>, stamp: nat)
    | Renewed(who: string, seen: Object<Lease>, stamp: nat)
    | Deleted(who: string)

  type Run = History<World, Action>

  predicate Available(now: nat, lease: Lease) {
    || lease.holder.None?
    || lease.renewed.None?
    || lease.duration.None?
    || now > lease.renewed.value + lease.duration.value
  }

  function FreshLease(who: string, stamp: nat): Lease {
    Lease(Some(who), Some(LEASE_DURATION), Some(stamp), Some(stamp))
  }

  predicate Enabled(w: World, a: Action) {
    match a
    case Tick(_) => true
    case Created(_, _) => LEASE !in w.leases.objects
    case TakenOver(_, seen, _) => AtVersion(w.leases, LEASE, seen.version)
    case Renewed(_, seen, _) => AtVersion(w.leases, LEASE, seen.version)
    case Deleted(_) => LEASE in w.leases.objects
  }

  /** A take-over overwrites holder and times but keeps the duration it found. */
  function Apply(w: World, a: Action): World {
    match a
    case Tick(elapsed) => w.(now := w.now + elapsed)
    case Created(who, stamp) =>
      w.(leases := Put(w.leases, LEASE, FreshLease(who, stamp)), counted := w.counted[who := stamp])
    case TakenOver(who, seen, stamp) =>
      var lease := seen.value.(holder := Some(who), acquired := Some(stamp), renewed := Some(stamp));
      w.(leases := Put(w.leases, LEASE, lease), counted := w.counted[who := stamp])
    case Renewed(who, seen, stamp) =>
      w.(leases := Put(w.leases, LEASE, seen.value.(renewed := Some(stamp))), counted := w.counted[who := stamp])
    case Deleted(who) =>
      w.(leases := Remove(w.leases, LEASE), counted := w.counted - {who})
  }

  ghost predicate ReadAt(run: Run, g: nat, k: nat, o: Object<Lease>) {
    g <= k < |run.worlds| && Has(run.worlds[g].leases, LEASE, o)
  }

  ghost predicate FoundAvailable(run: Run, g: nat, m: nat, k: nat, o: Object<Lease>) {
    g <= m <= k < |run.worlds| && ReadAt(run, g, k, o) && Available(run.worlds[m].now, o.value)
  }

  ghost predicate StampedAt(run: Run, m: nat, k: nat, stamp: nat) {
    m <= k < |run.worlds| && run.worlds[m].now == stamp
  }

  /** What the instance must have read before taking the step. Nothing says the reading is
      still true: an update is protected by its version, a delete by nothing. */
  ghost predicate Justified(run: Run, k: nat, a: Action) {
    match a
    case Tick(_) => true
    case Created(_, stamp) => exists m: nat :: StampedAt(run, m, k, stamp)
    case TakenOver(_, seen, stamp) =>
      && (exists m: nat :: StampedAt(run, m, k, stamp))
      && (exists g: nat, m: nat :: FoundAvailable(run, g, m, k, seen))
    case Renewed(who, seen, stamp) =>
      && (exists m: nat :: StampedAt(run, m, k, stamp))
      && seen.value.holder == Some(who)
      && (exists g: nat :: ReadAt(run, g, k, seen))
    case Deleted(who) => exists g: nat, o :: ReadAt(run, g, k, o) && o.value.holder == Some(who)
  }

  ghost predicate LegalStep(run: Run, k: nat)
    requires k < |run.actions| && |run.worlds| == |run.actions| + 1
  {
    && Enabled(run.worlds[k], run.actions[k])
    && Justified(run, k, run.actions[k])
    && run.worlds[k + 1] == Apply(run.worlds[k], run.actions[k])
  }

  /** Runs start with no lease stored. */
  ghost predicate Legal(run: Run) {
    && |run.worlds| == |run.actions| + 1
    && run.worlds[0].leases.objects == map[] && run.worlds[0].counted == map[]
    && forall k :: 0 <= k < |run.actions| ==> LegalStep(run, k)
  }

  /** The instance acquired the lease, has not released it, and it has not expired. */
  predicate Holding(w: World, h: string) {
    h in w.counted && w.now <= w.counted[h] + LEASE_DURATION
  }

  /** The assumption on releases: each delete lands before the releaser's own lease expires. */
  ghost predicate TimelyReleases(run: Run, k: nat) {
    |run.worlds| == |run.actions| + 1 && k < |run.worlds|
    && forall j :: 0 <= j < k && run.actions[j].Deleted? ==> Holding(run.worlds[j], run.actions[j].who)
  }

  lemma {:induction false} RunEvolves(run: Run, i: nat, j: nat)
    requires Legal(run) && i <= j < |run.worlds|
    ensures Evolves(run.worlds[i].leases, run.worlds[j].leases) && VersionsUsed(run.worlds[i].leases)
    ensures run.worlds[i].now <= run.worlds[j].now
    decreases j
  {
    if j == 0 {
    } else if i == j {
      RunEvolves(run, 0, j - 1);
      assert LegalStep(run, j - 1);
    } else {
      RunEvolves(run, i, j - 1);
      assert LegalStep(run, j - 1);
      EvolvesTransitive(run.worlds[i].leases, run.worlds[j - 1].leases, run.worlds[j].leases);
    }
  }

  predicate WellFormed(lease: Lease) {
    lease.holder.Some? && lease.renewed.Some? && lease.duration == Some(LEASE_DURATION)
  }

  /** Every stored lease is complete and keeps the 30 second duration, although a take-over
      writes back whatever duration it finds. */
  lemma {:induction false} LeaseStaysWellFormed(run: Run, k: nat)
    requires Legal(run) && k < |run.worlds|
    ensures LEASE in run.worlds[k].leases.objects ==> WellFormed(run.worlds[k].leases.objects[LEASE].value)
  {
    if k > 0 {
      LeaseStaysWellFormed(run, k - 1);
      assert LegalStep(run, k - 1);
      var a := run.actions[k - 1];
      if a.TakenOver? || a.Renewed? {
        SeenIsCurrent(run, k - 1);
      }
    }
  }

  /** A stored lease becomes available 30 seconds after it was last written, and not before. */
  lemma StoredLeaseExpires(run: Run, k: nat)
    requires Legal(run) && k < |run.worlds| && LEASE in run.worlds[k].leases.objects
    ensures var w := run.worlds[k];
            var lease := w.leases.objects[LEASE].value;
            lease.renewed.Some? && (Available(w.now, lease) <==> w.now > lease.renewed.value + 30_000_000)
  {
    LeaseStaysWellFormed(run, k);
  }

  /** The version check makes the lease an update was computed from the one it replaces. */
  lemma SeenIsCurrent(run: Run, k: nat)
    requires Legal(run) && k < |run.actions|
    requires run.actions[k].TakenOver? || run.actions[k].Renewed?
    ensures Has(run.worlds[k].leases, LEASE, run.actions[k].seen)
    ensures run.actions[k].TakenOver? ==> Available(run.worlds[k].now, run.actions[k].seen.value)
  {
    assert LegalStep(run, k);
    var seen := run.actions[k].seen;
    if run.actions[k].TakenOver? {
      var g: nat, m: nat :| FoundAvailable(run, g, m, k, seen);
      RunEvolves(run, g, k);
      RunEvolves(run, m, k);
      RunEvolves(run, k, k);
      SameVersionSameObject(run.worlds[g].leases, run.worlds[k].leases, run.worlds[k].leases, LEASE, seen);
    } else {
      var g: nat :| ReadAt(run, g, k, seen);
      RunEvolves(run, g, k);
      RunEvolves(run, k, k);
      SameVersionSameObject(run.worlds[g].leases, run.worlds[k].leases, run.worlds[k].leases, LEASE, seen);
    }
  }

  /** Whoever still counts on the lock is the holder the stored lease names. */
  ghost predicate HolderIsStored(w: World) {
    forall h :: Holding(w, h) ==>
      && LEASE in w.leases.objects
      && w.leases.objects[LEASE].value.holder == Some(h)
      && w.leases.objects[LEASE].value.renewed == Some(w.counted[h])
  }

  lemma {:induction false} HolderAlwaysStored(run: Run, k: nat)
    requires Legal(run) && TimelyReleases(run, k)
    ensures HolderIsStored(run.worlds[k])
  {
    if k > 0 {
      HolderAlwaysStored(run, k - 1);
      assert LegalStep(run, k - 1);
      LeaseStaysWellFormed(run, k - 1);
      var a := run.actions[k - 1];
      if a.TakenOver? || a.Renewed? {
        SeenIsCurrent(run, k - 1);
      }
      forall h | Holding(run.worlds[k], h)
        ensures LEASE in run.worlds[k].leases.objects
             && run.worlds[k].leases.objects[LEASE].value.holder == Some(h)
             && run.worlds[k].leases.objects[LEASE].value.renewed == Some(run.worlds[k].counted[h])
      {
        if !a.Tick? && h != a.who {
          assert Holding(run.worlds[k - 1], h);
        }
        assert a.Tick? ==> Holding(run.worlds[k - 1], h);
      }
    }
  }

  /** Mutual exclusion: however the instances interleave, as long as every release lands in
      time, no two of them each have an unexpired lease they acquired. */
  lemma AtMostOneHolder(run: Run, k: nat, h1: string, h2: string)
    requires Legal(run) && TimelyReleases(run, k)
    requires Holding(run.worlds[k], h1) && Holding(run.worlds[k], h2)
    ensures h1 == h2
  {
    HolderAlwaysStored(run, k);
  }

  /** The holder the stored lease names counts on exactly the time stored with it. */
  lemma {:induction false} StoredHolderCounts(run: Run, k: nat, h: string)
    requires Legal(run) && k < |run.worlds| && LEASE in run.worlds[k].leases.objects
    requires run.worlds[k].leases.objects[LEASE].value.holder == Some(h)
    ensures h in run.worlds[k].counted
    ensures run.worlds[k].leases.objects[LEASE].value.renewed == Some(run.worlds[k].counted[h])
  {
    if k > 0 {
      assert LegalStep(run, k - 1);
      var a := run.actions[k - 1];
      if a.Tick? {
        StoredHolderCounts(run, k - 1, h);
      }
    }
  }

  /** A delete without a precondition keeps whoever counts on the lock stored exactly when
      the lease it removes names the releaser or has expired, which is what a precondition on
      the delete would check. Being in time is enough for that. */
  lemma DeleteIsSafeIff(run: Run, who: string)
    requires Legal(run) && HolderIsStored(run.worlds[Last(run)]) && LEASE in run.worlds[Last(run)].leases.objects
    ensures var w := run.worlds[Last(run)];
            var stored := w.leases.objects[LEASE].value;
            && (HolderIsStored(Apply(w, Deleted(who))) <==> stored.holder == Some(who) || Available(w.now, stored))
            && (Holding(w, who) ==> stored.holder == Some(who))
  {
    var w := run.worlds[Last(run)];
    var stored := w.leases.objects[LEASE].value;
    var after := Apply(w, Deleted(who));
    LeaseStaysWellFormed(run, Last(run));
    StoredHolderCounts(run, Last(run), stored.holder.value);
    assert forall h :: h != who ==> Holding(after, h) == Holding(w, h);
    assert !Holding(after, who);
    if stored.holder != Some(who) && !Available(w.now, stored) {
      assert Holding(after, stored.holder.value);
    }
  }

  // ---- runs made step by step

  function With(r: Run, a: Action): Run
    requires |r.worlds| == |r.actions| + 1
  {
    History(r.worlds + [Apply(r.worlds[|r.actions|], a)], r.actions + [a])
  }

  lemma JustifiedLater(r: Run, i: nat, s: Run, j: nat, a: Action)
    requires r.worlds <= s.worlds && i < |r.worlds| && i <= j < |s.worlds|
    requires Justified(r, i, a)
    ensures Justified(s, j, a)
  {
    match a
    case Tick(_) =>
    case Created(_, stamp) =>
      var m: nat :| StampedAt(r, m, i, stamp);
      assert StampedAt(s, m, j, stamp);
    case TakenOver(_, seen, stamp) =>
      var m: nat :| StampedAt(r, m, i, stamp);
      assert StampedAt(s, m, j, stamp);
      var g: nat, f: nat :| FoundAvailable(r, g, f, i, seen);
      assert FoundAvailable(s, g, f, j, seen);
    case Renewed(_, seen, stamp) =>
      var m: nat :| StampedAt(r, m, i, stamp);
      assert StampedAt(s, m, j, stamp);
      var g: nat :| ReadAt(r, g, i, seen);
      assert ReadAt(s, g, j, seen);
    case Deleted(who) =>
      var g: nat, o :| ReadAt(r, g, i, o) && o.value.holder == Some(who);
      assert ReadAt(s, g, j, o);
  }

  lemma LegalWithStep(r: Run, a: Action)
    requires Legal(r) && Enabled(r.worlds[Last(r)], a) && Justified(r, Last(r), a)
    ensures Legal(With(r, a))
  {
    var s := With(r, a);
    forall k | 0 <= k < |s.actions|
      ensures LegalStep(s, k)
    {
      if k < |r.actions| {
        assert LegalStep(r, k);
      }
      JustifiedLater(r, k, s, k, s.actions[k]);
    }
  }

  /** Whenever a delete lands while another instance still counts on the lock, a third can
      acquire it at once and both hold it. */
  lemma DeleteWhileHeld(run: Run, who: string, h: string, c: string)
    requires Legal(run) && LEASE in run.worlds[Last(run)].leases.objects
    requires Justified(run, Last(run), Deleted(who))
    requires Holding(run.worlds[Last(run)], h) && h != who && h != c
    ensures var s := With(With(run, Deleted(who)), Created(c, run.worlds[Last(run)].now));
            Legal(s) && Holding(s.worlds[Last(s)], h) && Holding(s.worlds[Last(s)], c)
  {
    var now := run.worlds[Last(run)].now;
    LegalWithStep(run, Deleted(who));
    var deleted := With(run, Deleted(who));
    assert StampedAt(deleted, Last(deleted), Last(deleted), now);
    LegalWithStep(deleted, Created(c, now));
  }

  /** Release is a Get followed by a Delete without precondition. If the releaser's lease
      expires in between, the delete removes the next holder's lease and a third instance
      acquires beside it. */
  lemma LateReleaseBreaksExclusion() returns (run: Run)
    ensures Legal(run) && Last(run) < |run.worlds|
    ensures Holding(run.worlds[Last(run)], "b") && Holding(run.worlds[Last(run)], "c")
  {
    var held, lease := LapsedRun();
    var later := LEASE_DURATION + 1;
    assert held.worlds[2].now == later;
    assert StampedAt(held, 2, 2, later) && FoundAvailable(held, 1, 2, 2, lease);
    LegalWithStep(held, TakenOver("b", lease, later));
    var taken := With(held, TakenOver("b", lease, later));
    assert ReadAt(taken, 1, 3, lease);
    LegalWithStep(taken, Deleted("a"));
    var deleted := With(taken, Deleted("a"));
    assert StampedAt(deleted, 4, 4, later);
    LegalWithStep(deleted, Created("c", later));
    run := With(deleted, Created("c", later));
  }

  /** An instance acquires the lease and lets it expire. */
  lemma LapsedRun() returns (run: Run, lease: Object<Lease>)
    ensures Legal(run) && Last(run) == 2
    ensures run.worlds[2].now == LEASE_DURATION + 1 && run.worlds[2].leases == run.worlds[1].leases
    ensures Has(run.worlds[1].leases, LEASE, lease) && lease.value == FreshLease("a", 0)
  {
    var start := History([World(Store(map[], 0), map[], 0)], []);
    assert StampedAt(start, 0, 0, 0);
    LegalWithStep(start, Created("a", 0));
    var created := With(start, Created("a", 0));
    LegalWithStep(created, Tick(LEASE_DURATION + 1));
    run := With(created, Tick(LEASE_DURATION + 1));
    lease := created.worlds[1].leases.objects[LEASE];
  }
}
