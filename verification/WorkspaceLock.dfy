/** The lock code (internal/workspace/lock.go) over a shared lease; as in AliasClaims, every
    call lets the other instances act first and then takes its own step. */
module WorkspaceLock {
  import opened Prelude
  import opened Runs
  import opened ApiServer
  import opened LeaseProtocol

  predicate ByOther(me: string, a: Action) {
    a.Tick? || a.who != me
  }

  /** s is r followed by steps of other instances and then the steps own. */
  ghost predicate OthersThen(me: string, r: Run, s: Run, own: seq<Action>) {
    && Extends(r, s)
    && |r.actions| + |own| <= |s.actions|
    && s.actions[|s.actions| - |own|..] == own
    && forall k :: |r.actions| <= k < |s.actions| - |own| ==> ByOther(me, s.actions[k])
  }

  lemma OthersThenChains(me: string, r: Run, s: Run, t: Run, own: seq<Action>)
    requires OthersThen(me, r, s, []) && OthersThen(me, s, t, own)
    ensures OthersThen(me, r, t, own)
  {
    forall k | |r.actions| <= k < |t.actions| - |own|
      ensures ByOther(me, t.actions[k])
    {
      assert k < |s.actions| ==> t.actions[k] == s.actions[k];
    }
  }

  /** Between moments i and j somebody had the lock, or wrote or deleted the lease. */
  ghost predicate Hindered(run: Run, i: nat, j: nat) {
    HeldBetween(run, i, j) || WrittenBetween(run, i, j)
  }

  ghost predicate HeldBetween(run: Run, i: nat, j: nat) {
    exists m :: i <= m <= j && m < |run.worlds| && Held(run.worlds[m])
  }

  ghost predicate WrittenBetween(run: Run, i: nat, j: nat) {
    exists k :: i <= k < j && k < |run.actions| && !run.actions[k].Tick?
  }

  predicate Held(w: World) {
    LEASE in w.leases.objects && !Available(w.now, w.leases.objects[LEASE].value)
  }

  lemma HinderedStays(r: Run, i: nat, j: nat, s: Run, i': nat, j': nat)
    requires Hindered(r, i, j) && Extends(r, s) && i' <= i && j <= j'
    ensures Hindered(s, i', j')
  {
    if HeldBetween(r, i, j) {
      var m :| i <= m <= j && m < |r.worlds| && Held(r.worlds[m]);
      assert Held(s.worlds[m]);
    } else {
      var k :| i <= k < j && k < |r.actions| && !r.actions[k].Tick?;
      assert !s.actions[k].Tick?;
    }
  }

  lemma {:induction false} UnwrittenStays(run: Run, i: nat, j: nat)
    requires Legal(run) && i <= j <= |run.actions| && !WrittenBetween(run, i, j)
    ensures run.worlds[j].leases == run.worlds[i].leases && run.worlds[i].now <= run.worlds[j].now
    decreases j
  {
    if i < j {
      assert run.actions[j - 1].Tick?;
      UnwrittenStays(run, i, j - 1);
      assert LegalStep(run, j - 1);
    }
  }

  /** A free or expired lease stays so while nobody writes it. */
  lemma FreeStays(run: Run, i: nat, j: nat)
    requires Legal(run) && i <= j <= |run.actions| && !Held(run.worlds[i])
    ensures Hindered(run, i, j) ==> WrittenBetween(run, i, j)
  {
    if !WrittenBetween(run, i, j) {
      forall m | i <= m <= j
        ensures !Held(run.worlds[m])
      {
        UnwrittenStays(run, i, m);
      }
    }
  }

  lemma LostRaceWasWritten(run: Run, g: nat, a: Action)
    requires Legal(run) && g <= Last(run) && (a.Created? || a.TakenOver? || a.Renewed?)
    requires Enabled(run.worlds[g], a) && !Enabled(run.worlds[Last(run)], a)
    ensures WrittenBetween(run, g, Last(run))
  {
    if !WrittenBetween(run, g, Last(run)) {
      UnwrittenStays(run, g, Last(run));
    }
  }

  predicate Names(w: World, me: string) {
    LEASE in w.leases.objects && w.leases.objects[LEASE].value.holder == Some(me)
  }

  class LeaseServer {
    var world: World
    ghost var run: Run
    ghost var failed: bool  // whether any call of the instance failed

    ghost predicate Valid()
      reads this
    {
      Legal(run) && run.worlds[Last(run)] == world
    }

    /** Whatever the other instances and the clock do between two calls of me; callers see
        only the contract. */
    method Others(ghost me: string)
      requires Valid()
      modifies this
      ensures Valid() && OthersThen(me, old(run), run, []) && failed == old(failed)
    {
    }

    method Act(a: Action)
      requires Valid() && Enabled(world, a) && Justified(run, Last(run), a)
      modifies this
      ensures Valid() && world == Apply(old(world), a) && failed == old(failed)
      ensures run == History(old(run.worlds) + [world], old(run.actions) + [a])
    {
      LegalWithStep(run, a);
      world := Apply(world, a);
      run := History(run.worlds + [world], run.actions + [a]);
    }

    method Sleep(delay: nat, ghost me: string)
      requires Valid()
      modifies this
      ensures Valid() && OthersThen(me, old(run), run, []) && world.now >= old(world.now) + delay
      ensures failed == old(failed)
    {
      Others(me);
      RunEvolves(run, Last(old(run)), Last(run));
      Act(Tick(delay));
    }

    method Get(ghost me: string) returns (r: Result<Object<Lease>, Outcome>)
      requires Valid()
      modifies this
      ensures Valid() && OthersThen(me, old(run), run, [])
      ensures r.Ok? ==> Has(world.leases, LEASE, r.value)
      ensures r == Err(NotFound) ==> LEASE !in world.leases.objects
      ensures r.Err? ==> r.error == NotFound || r.error == Failed
      ensures failed == (old(failed) || r == Err(Failed))
    {
      Others(me);
      var broken: bool := *;
      failed := failed || broken;
      r := if broken then Err(Failed)
           else if LEASE in world.leases.objects then Ok(world.leases.objects[LEASE]) else Err(NotFound);
    }

    method Now(ghost me: string) returns (now: nat)
      requires Valid()
      modifies this
      ensures Valid() && OthersThen(me, old(run), run, []) && now == world.now
      ensures failed == old(failed)
    {
      Others(me);
      now := world.now;
    }

    /** Create, or a compare-and-swap Update, with a stamp read from the clock. */
    method Write(a: Action) returns (o: Outcome)
      requires Valid() && Justified(run, Last(run), a) && (a.Created? || a.TakenOver? || a.Renewed?)
      modifies this
      ensures Valid() && OthersThen(a.who, old(run), run, if o.Done? then [a] else [])
      ensures o.Done? ==> 0 < Last(run) && world == Apply(run.worlds[Last(run) - 1], a)
      ensures o.AlreadyExists? || o.NotFound? || o.Conflict? ==> (a.Created? <==> o.AlreadyExists?)
      ensures failed == (old(failed) || o.Failed?)
      ensures !o.Done? && !o.Failed? ==> !Enabled(world, a)
    {
      ghost var before := run;
      Others(a.who);
      var broken: bool := *;
      if broken {
        failed := true;
        return Failed;
      }
      if !Enabled(world, a) {
        return if a.Created? then AlreadyExists else if LEASE in world.leases.objects then Conflict else NotFound;
      }
      JustifiedLater(before, Last(before), run, Last(run), a);
      Act(a);
      o := Done;
    }

    /** Delete without a precondition. */
    method Delete(who: string) returns (o: Outcome)
      requires Valid() && Justified(run, Last(run), Deleted(who))
      modifies this
      ensures Valid() && OthersThen(who, old(run), run, if o.Done? then [Deleted(who)] else [])
      ensures o.Done? || o.NotFound? ==> LEASE !in world.leases.objects
      ensures o.Done? ==> who !in world.counted
      ensures o.Done? || o.NotFound? || o.Failed?
      ensures failed == (old(failed) || o.Failed?)
    {
      ghost var before := run;
      Others(who);
      var broken: bool := *;
      if broken {
        failed := true;
        return Failed;
      }
      if LEASE !in world.leases.objects {
        return NotFound;
      }
      JustifiedLater(before, Last(before), run, Last(run), Deleted(who));
      Act(Deleted(who));
      o := Done;
    }
  }

  datatype LockError = LockAlreadyHeld | Cancelled | ApiError

  /** The lease names this instance, which counts on the time it wrote. */
  predicate Owns(w: World, me: string) {
    && LEASE in w.leases.objects && me in w.counted
    && w.leases.objects[LEASE].value.holder == Some(me)
    && w.leases.objects[LEASE].value.renewed == Some(w.counted[me])
    && w.counted[me] <= w.now
  }

  class WorkspaceLock {
    const server: LeaseServer
    const holderID: string

    constructor (server: LeaseServer, holderID: string)
      ensures this.server == server && this.holderID == holderID
    {
      this.server := server;
      this.holderID := holderID;
    }

    /** Tries until the deadline, or at most once when it is not to wait. On success the last step of
        the run made this instance the lease's holder; otherwise it wrote nothing. The loop
        ends because every round sleeps at least one second. */
    method AcquireWithOptions(waitForLock: bool, deadline: nat)
      returns (r: Result<bool, LockError>, ghost own: seq<Action>, ghost attempts: nat)
      requires server.Valid()
      modifies server
      ensures server.Valid() && OthersThen(holderID, old(server.run), server.run, own)
      ensures !waitForLock ==> attempts <= 1 && (attempts == 0 <==> r == Err(Cancelled))
      ensures attempts == 0 ==> r == Err(Cancelled) && old(server.world.now) >= deadline
      ensures if r.Ok? then r.value && |own| == 1 && Owns(server.world, holderID) else own == []
      ensures |own| == 1 ==> (own[0].Created? || own[0].TakenOver?) && own[0].who == holderID
      ensures r.Err? && r.error.LockAlreadyHeld? ==> !waitForLock
      ensures r.Err? && r.error.Cancelled? ==> server.world.now >= deadline
      ensures r.Err? ==> attempts == 0 || server.failed || Hindered(server.run, Last(old(server.run)), Last(server.run))
      ensures r == Err(ApiError) ==> server.failed
      ensures old(server.world.now) < deadline && !Held(old(server.world)) ==>
                || r == Ok(true) || server.failed
                || WrittenBetween(server.run, Last(old(server.run)), Last(server.run) - |own|)
    {
      ghost var start := server.run;
      var retryDelay := SECOND;
      own, attempts := [], 0;
      while true
        invariant server.Valid() && OthersThen(holderID, start, server.run, []) && own == []
        invariant SECOND <= retryDelay <= 5 * SECOND
        invariant !waitForLock ==> attempts == 0
        invariant attempts == 0 ==> server.run == start
        invariant attempts == 0 || server.failed || Hindered(server.run, Last(start), Last(server.run))
        invariant old(server.failed) ==> server.failed
        decreases deadline - server.world.now
      {
        if server.world.now >= deadline {
          if !Held(old(server.world)) {
            FreeStays(server.run, Last(start), Last(server.run));
          }
          return Err(Cancelled), own, attempts;
        }
        ghost var r0 := server.run;
        var acquired;
        acquired, own := Attempt();
        attempts := attempts + 1;
        OthersThenChains(holderID, start, r0, server.run, own);
        ghost var tried := server.run;
        if acquired != Ok(true) && !server.failed {
          HinderedStays(tried, Last(r0), Last(tried), tried, Last(start), Last(tried));
          if !Held(old(server.world)) {
            FreeStays(tried, Last(start), Last(tried));
          }
        }
        if acquired.Err? && acquired.error.ApiError? {
          return Err(ApiError), own, attempts;
        }
        if acquired == Ok(true) {
          return Ok(true), own, attempts;
        }
        if !waitForLock {
          return Err(LockAlreadyHeld), own, attempts;
        }
        ghost var r1 := server.run;
        server.Sleep(retryDelay, holderID);
        OthersThenChains(holderID, start, r1, server.run, []);
        RunEvolves(server.run, Last(r0), Last(r1));
        if !server.failed {
          HinderedStays(tried, Last(start), Last(tried), server.run, Last(start), Last(server.run));
        }
        retryDelay := if retryDelay * 2 > 5 * SECOND then 5 * SECOND else retryDelay * 2;
      }
    }

    /** One round: create the lease when there is none, take it over when it is available. A
        lost race or a failed update is no error of the round. */
    method Attempt() returns (r: Result<bool, LockError>, ghost own: seq<Action>)
      requires server.Valid()
      modifies server
      ensures server.Valid() && OthersThen(holderID, old(server.run), server.run, own)
      ensures if r == Ok(true) then |own| == 1 && Owns(server.world, holderID) else own == []
      ensures |own| == 1 ==> (own[0].Created? || own[0].TakenOver?) && own[0].who == holderID
      ensures r != Ok(true) ==> server.failed || Hindered(server.run, Last(old(server.run)), Last(server.run))
      ensures r.Err? ==> server.failed
      ensures old(server.failed) ==> server.failed
    {
      ghost var start := server.run;
      own := [];
      var existing := server.Get(holderID);
      ghost var r1 := server.run;
      if existing == Err(NotFound) {
        var created;
        created, own := CreateLease(Last(r1));
        OthersThenChains(holderID, start, r1, server.run, own);
        return created, own;
      }
      if existing.Err? {
        return Err(ApiError), own;
      }
      var now := server.Now(holderID);
      OthersThenChains(holderID, start, r1, server.run, []);
      if !Available(now, existing.value.value) {
        if !WrittenBetween(server.run, Last(r1), Last(server.run)) {
          UnwrittenStays(server.run, Last(r1), Last(server.run));
          assert Held(server.run.worlds[Last(server.run)]);
        }
        HinderedStays(server.run, Last(r1), Last(server.run), server.run, Last(start), Last(server.run));
        return Ok(false), own;
      }
      assert FoundAvailable(server.run, Last(r1), Last(server.run), Last(server.run), existing.value);
      ghost var r2 := server.run;
      r, own := AcquireExistingLease(existing.value, Last(r1), Last(r2));
      OthersThenChains(holderID, start, r2, server.run, own);
    }

    /** There was no lease at moment g. */
    method CreateLease(ghost g: nat) returns (r: Result<bool, LockError>, ghost own: seq<Action>)
      requires server.Valid() && g <= Last(server.run) && LEASE !in server.run.worlds[g].leases.objects
      modifies server
      ensures r != Ok(true) ==> server.failed || Hindered(server.run, g, Last(server.run))
      ensures r.Err? ==> server.failed && r.error == ApiError
      ensures old(server.failed) ==> server.failed
      ensures server.Valid() && OthersThen(holderID, old(server.run), server.run, own)
      ensures if r == Ok(true) then |own| == 1 && Owns(server.world, holderID) else own == []
      ensures |own| == 1 ==> own[0].Created? && own[0].who == holderID
    {
      ghost var start := server.run;
      var now := server.Now(holderID);
      assert StampedAt(server.run, Last(server.run), Last(server.run), now);
      ghost var r1 := server.run;
      var o := server.Write(Created(holderID, now));
      own := if o.Done? then [Created(holderID, now)] else [];
      OthersThenChains(holderID, start, r1, server.run, own);
      RunEvolves(server.run, Last(r1), Last(server.run));
      if !o.Done? && !o.Failed? {
        LostRaceWasWritten(server.run, g, Created(holderID, now));
      }
      r := if o.Done? then Ok(true) else if o.AlreadyExists? then Ok(false) else Err(ApiError);
    }

    /** Writes back the lease it was given, with holder and times replaced. Whatever stops
        the update, the caller only retries. The lease was read at moment g and found
        available at m. */
    method AcquireExistingLease(seen: Object<Lease>, ghost g: nat, ghost m: nat)
        returns (r: Result<bool, LockError>, ghost own: seq<Action>)
      requires server.Valid() && FoundAvailable(server.run, g, m, Last(server.run), seen)
      modifies server
      ensures r != Ok(true) ==> server.failed || Hindered(server.run, g, Last(server.run))
      ensures old(server.failed) ==> server.failed
      ensures server.Valid() && OthersThen(holderID, old(server.run), server.run, own)
      ensures if r == Ok(true) then |own| == 1 && Owns(server.world, holderID) else own == [] && r == Ok(false)
      ensures |own| == 1 ==> own[0].TakenOver? && own[0].who == holderID && own[0].seen == seen
    {
      ghost var start := server.run;
      var now := server.Now(holderID);
      assert StampedAt(server.run, Last(server.run), Last(server.run), now);
      assert FoundAvailable(server.run, g, m, Last(server.run), seen);
      ghost var r1 := server.run;
      var o := server.Write(TakenOver(holderID, seen, now));
      own := if o.Done? then [TakenOver(holderID, seen, now)] else [];
      OthersThenChains(holderID, start, r1, server.run, own);
      RunEvolves(server.run, Last(r1), Last(server.run));
      if !o.Done? && !o.Failed? {
        LostRaceWasWritten(server.run, g, TakenOver(holderID, seen, now));
      }
      r := Ok(o.Done?);
    }

    /** Extends the lease, or reports that another instance holds it now. */
    method Renew() returns (r: Result<(), LockError>, ghost own: seq<Action>)
      requires server.Valid()
      modifies server
      ensures server.Valid() && OthersThen(holderID, old(server.run), server.run, own)
      ensures if r.Ok? then |own| == 1 && Owns(server.world, holderID) else own == []
      ensures |own| == 1 ==> own[0].Renewed? && own[0].who == holderID
      ensures r.Err? && r.error.LockAlreadyHeld? ==>
                LEASE in server.world.leases.objects
                && server.world.leases.objects[LEASE].value.holder != Some(holderID)
      ensures Names(old(server.world), holderID) ==>
                r.Ok? || server.failed || WrittenBetween(server.run, Last(old(server.run)), Last(server.run) - |own|)
    {
      ghost var start := server.run;
      own := [];
      var got := server.Get(holderID);
      if Names(old(server.world), holderID) && !WrittenBetween(server.run, Last(start), Last(server.run)) {
        NamedStays(start, server.run, holderID);
      }
      if got.Err? {
        return Err(ApiError), own;
      }
      var seen := got.value;
      if seen.value.holder != Some(holderID) {
        return Err(LockAlreadyHeld), own;
      }
      ghost var r1 := server.run;
      var now := server.Now(holderID);
      assert StampedAt(server.run, Last(server.run), Last(server.run), now);
      assert ReadAt(server.run, Last(r1), Last(server.run), seen);
      OthersThenChains(holderID, start, r1, server.run, []);
      ghost var r2 := server.run;
      var o := server.Write(Renewed(holderID, seen, now));
      own := if o.Done? then [Renewed(holderID, seen, now)] else [];
      OthersThenChains(holderID, start, r2, server.run, own);
      RunEvolves(server.run, Last(r2), Last(server.run));
      if !o.Done? && !o.Failed? {
        LostRaceWasWritten(server.run, Last(r1), Renewed(holderID, seen, now));
        assert WrittenBetween(server.run, Last(start), Last(server.run));
      }
      r := if o.Done? then Ok(()) else Err(ApiError);
    }

    /** Deletes the lease if it names this instance when read. Landing before that lease
        expires, the delete removes no one else's. */
    method Release() returns (ok: bool, ghost own: seq<Action>)
      requires server.Valid()
      modifies server
      ensures server.Valid() && OthersThen(holderID, old(server.run), server.run, own)
      ensures own == [] || own == [Deleted(holderID)]
      ensures own != [] ==> holderID !in server.world.counted
      ensures own != [] && TimelyReleases(server.run, Last(server.run)) ==>
                Owns(server.run.worlds[Last(server.run) - 1], holderID)
      ensures !ok ==> server.failed
      ensures Names(old(server.world), holderID) ==>
                own != [] || server.failed || WrittenBetween(server.run, Last(old(server.run)), Last(server.run) - |own|)
    {
      ghost var start := server.run;
      own := [];
      var got := server.Get(holderID);
      if Names(old(server.world), holderID) && !WrittenBetween(server.run, Last(start), Last(server.run)) {
        NamedStays(start, server.run, holderID);
      }
      if got.Err? {
        return got.error.NotFound?, own;
      }
      var seen := got.value;
      if seen.value.holder != Some(holderID) {
        return true, own;
      }
      ghost var r1 := server.run;
      ok, own := DeleteLease(seen);
      OthersThenChains(holderID, start, r1, server.run, own);
      if own == [] && !server.failed {
        var k :| Last(r1) <= k < Last(server.run) && !server.run.actions[k].Tick?;
        assert WrittenBetween(server.run, Last(start), Last(server.run));
      }
    }

    /** The lease just read named this instance. */
    method DeleteLease(ghost seen: Object<Lease>) returns (ok: bool, ghost own: seq<Action>)
      requires server.Valid() && Has(server.world.leases, LEASE, seen) && seen.value.holder == Some(holderID)
      modifies server
      ensures server.Valid() && OthersThen(holderID, old(server.run), server.run, own)
      ensures own == [] || own == [Deleted(holderID)]
      ensures own != [] ==> holderID !in server.world.counted
      ensures own != [] && TimelyReleases(server.run, Last(server.run)) ==>
                Owns(server.run.worlds[Last(server.run) - 1], holderID)
      ensures !ok ==> server.failed
      ensures own == [] ==> server.failed || WrittenBetween(server.run, Last(old(server.run)), Last(server.run))
    {
      assert ReadAt(server.run, Last(server.run), Last(server.run), seen);
      ghost var start := server.run;
      var o := server.Delete(holderID);
      own := if o.Done? then [Deleted(holderID)] else [];
      if own != [] && TimelyReleases(server.run, Last(server.run)) {
        TimelyDeleteIsOwn(start, server.run, holderID);
      }
      if o.NotFound? && !WrittenBetween(server.run, Last(start), Last(server.run)) {
        UnwrittenStays(server.run, Last(start), Last(server.run));
      }
      ok := !o.Failed?;
    }
  }

  lemma NamedStays(r: Run, s: Run, me: string)
    requires Legal(r) && Legal(s) && Extends(r, s) && Names(r.worlds[Last(r)], me)
             && !WrittenBetween(s, Last(r), Last(s))
    ensures Names(s.worlds[Last(s)], me)
  {
    UnwrittenStays(s, Last(r), Last(s));
  }

  lemma TimelyDeleteIsOwn(r: Run, s: Run, me: string)
    requires Legal(s) && OthersThen(me, r, s, [Deleted(me)]) && TimelyReleases(s, Last(s))
    ensures Owns(s.worlds[Last(s) - 1], me)
  {
    var k := Last(s) - 1;
    assert s.actions[k] == s.actions[k..][0];
    HolderAlwaysStored(s, k);
    CountedIsPast(s, k, me);
  }

  lemma {:induction false} CountedIsPast(run: Run, k: nat, h: string)
    requires Legal(run) && k < |run.worlds| && h in run.worlds[k].counted
    ensures run.worlds[k].counted[h] <= run.worlds[k].now
  {
    if k > 0 {
      assert LegalStep(run, k - 1);
      if h in run.worlds[k - 1].counted {
        CountedIsPast(run, k - 1, h);
      }
      var a := run.actions[k - 1];
      if a.Created? || a.TakenOver? || a.Renewed? {
        var m: nat :| StampedAt(run, m, k - 1, a.stamp);
        RunEvolves(run, m, k - 1);
      }
    }
  }
}
