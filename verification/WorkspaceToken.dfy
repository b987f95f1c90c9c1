/** Provision, stop and terminate as code over the services they call. */
module WorkspaceToken {
  import opened Prelude
  import opened Runs
  import opened TokenProtocol

  const DEFAULT_TIMEOUT: nat := 40   // in poll intervals of half a second
  const POLL_INTERVAL: nat := 1

  /** s is r followed by steps of the environment and then the steps own. */
  ghost predicate Then(r: Run, s: Run, own: seq<Action>) {
    && Extends(r, s)
    && |r.actions| + |own| <= |s.actions|
    && s.actions[|s.actions| - |own|..] == own
    && forall k :: |r.actions| <= k < |s.actions| - |own| ==> s.actions[k].Environment?
  }

  /** v differs from w only by what the environment can do. */
  predicate Untouched(w: World, v: World) {
    && v == w.(pod := v.pod, now := v.now) && w.now <= v.now
    && (w.pod.Gone? ==> v.pod.Gone?)
    && (!w.pod.Live? ==> !v.pod.Live?)
  }

  /** s is r followed by steps that are all careful. */
  ghost predicate CarefulSince(r: Run, s: Run) {
    Extends(r, s) && |r.actions| <= |s.actions| && Careful(s, |r.actions|, |s.actions|)
  }

  /** s is r followed by steps of the kind the code takes. */
  ghost predicate OrderlySince(r: Run, s: Run) {
    Extends(r, s) && |r.actions| <= |s.actions| && Orderly(s, |r.actions|, |s.actions|)
  }

  datatype ServiceError = ServiceFailed | NodeUnreachable | Timeout

  class Services {
    var world: World
    ghost var run: Run
    ghost var failed: bool  // whether any call failed

    ghost predicate Valid()
      reads this
    {
      Legal(run) && run.worlds[Last(run)] == world
    }

    /** What kubelet and clock do between two calls; callers see only the contract. */
    method Interfere()
      requires Valid()
      modifies this
      ensures Valid() && Then(old(run), run, []) && failed == old(failed)
    {
    }

    method Environment()
      requires Valid()
      modifies this
      ensures Valid() && Then(old(run), run, []) && CarefulSince(old(run), run)
      ensures Untouched(old(world), world) && failed == old(failed)
    {
      Interfere();
      EnvironmentKeeps(run, Last(old(run)), Last(run));
      TimePasses(run, Last(old(run)), Last(run));
      CarefulCall(old(run), run, []);
    }

    method Act(a: Action, next: World)
      requires Valid() && Step(world, a, next)
      modifies this
      ensures Valid() && world == next && failed == old(failed)
      ensures run == History(old(run.worlds) + [next], old(run.actions) + [a])
    {
      world := next;
      run := History(run.worlds + [next], run.actions + [a]);
    }

    /** Waiting for the lock is the business of WorkspaceLock. */
    method Lock()
      requires Valid() && !world.locked
      modifies this
      ensures Valid() && OrderlySince(old(run), run) && world == old(world).(locked := true)
      ensures failed == old(failed)
    {
      label before:
      Act(Locked, world.(locked := true));
      OrderlyAct(old@before(run), run, Locked);
    }

    method Unlock()
      requires Valid() && world.locked
      modifies this
      ensures Valid() && OrderlySince(old(run), run) && world == old(world).(locked := false)
      ensures failed == old(failed)
    {
      label before:
      Act(Unlocked, world.(locked := false));
      OrderlyAct(old@before(run), run, Unlocked);
    }

    method IsInstalled() returns (r: Result<bool, ServiceError>)
      requires Valid()
      modifies this
      ensures Valid() && CarefulSince(old(run), run) && Untouched(old(world), world)
      ensures r.Ok? ==> r.value == world.installed
      ensures failed == (old(failed) || r.Err?)
    {
      Environment();
      var broken: bool := *;
      failed := failed || broken;
      r := if broken then Err(ServiceFailed) else Ok(world.installed);
    }

    /** Gone when there is no pod. */
    method GetPod() returns (r: Result<Pod, ServiceError>)
      requires Valid()
      modifies this
      ensures Valid() && CarefulSince(old(run), run) && Untouched(old(world), world)
      ensures r.Ok? ==> r.value == world.pod
      ensures failed == (old(failed) || r.Err?)
    {
      Environment();
      var broken: bool := *;
      failed := failed || broken;
      r := if broken then Err(ServiceFailed) else Ok(world.pod);
    }

    method Sleep(delay: nat)
      requires Valid()
      modifies this
      ensures Valid() && CarefulSince(old(run), run) && Untouched(old(world), world)
      ensures world.now >= old(world.now) + delay && failed == old(failed)
    {
      Environment();
      label slept:
      Act(TokenProtocol.Environment, world.(now := world.now + delay));
      CarefulAct(old@slept(run), run, TokenProtocol.Environment);
      CarefulChains(old(run), old@slept(run), run);
    }

    /** Any call whose effect is not modelled: storage claims, services, alias claims,
        reading the pod's manifest, watching the pod. */
    method OtherCall() returns (ok: bool)
      requires Valid()
      modifies this
      ensures Valid() && CarefulSince(old(run), run) && Untouched(old(world), world)
      ensures failed == (old(failed) || !ok)
    {
      Environment();
      ok := *;
      failed := failed || !ok;
    }

    /** The identity service replaces the workspace's token by a new one. */
    method CreateAccessToken() returns (r: Result<nat, ServiceError>)
      requires Valid() && world.locked
      modifies this
      ensures Valid() && Extends(old(run), run)
      ensures !old(world.pod).Live? ==> CarefulSince(old(run), run)
      ensures Untouched(old(world).(identity := world.identity, next := world.next), world)
      ensures r.Ok? ==> world.identity == Some(r.value) && r.value == old(world.next) < world.next
      ensures r.Err? ==> Untouched(old(world), world)
      ensures failed == (old(failed) || r.Err?)
    {
      Environment();
      var broken: bool := *;
      failed := failed || broken;
      if broken {
        return Err(ServiceFailed);
      }
      r := Ok(world.next);
      label before:
      Act(TokenMinted, world.(identity := Some(world.next), next := world.next + 1));
      if !old(world.pod).Live? {
        CarefulAct(old@before(run), run, TokenMinted);
        CarefulChains(old(run), old@before(run), run);
      }
    }

    /** deleted is false when no token is found as well as when a call fails. */
    method DeleteAccessToken() returns (deleted: bool)
      requires Valid() && world.locked
      modifies this
      ensures Valid() && OrderlySince(old(run), run)
      ensures !deleted ==> CarefulSince(old(run), run) && Untouched(old(world), world)
      ensures deleted ==> Untouched(old(world).(identity := None), world)
      ensures !deleted && !failed ==> old(world.identity).None?
      ensures old(failed) ==> failed
    {
      Environment();
      var broken: bool := *;
      failed := failed || broken;
      deleted := !broken && world.identity.Some?;
      if deleted {
        label before:
        Act(TokenDeleted, world.(identity := None));
        OrderlyAct(old@before(run), run, TokenDeleted);
        CarefulIsOrderly(old(run), old@before(run));
        OrderlyChains(old(run), old@before(run), run);
      } else {
        CarefulIsOrderly(old(run), run);
      }
    }

    method UpdateSecret(token: nat) returns (ok: bool)
      requires Valid() && world.locked
      modifies this
      ensures Valid() && Extends(old(run), run)
      ensures Untouched(old(world).(secret := world.secret), world)
      ensures ok ==> world.secret == Some(token)
      ensures !old(world.pod).Live? && old(world.identity) == Some(token) ==> CarefulSince(old(run), run)
      ensures !ok && !failed ==> old(world.secret).None?
      ensures old(failed) ==> failed
    {
      Environment();
      var broken: bool := *;
      failed := failed || broken;
      if broken || world.secret.None? {
        return false;
      }
      label before:
      Act(SecretUpdated(token), world.(secret := Some(token)));
      if !old(world.pod).Live? && old(world.identity) == Some(token) {
        CarefulAct(old@before(run), run, SecretUpdated(token));
        CarefulChains(old(run), old@before(run), run);
      }
      ok := true;
    }

    method Install(token: nat) returns (ok: bool)
      requires Valid() && world.locked
      modifies this
      ensures Valid() && Extends(old(run), run) && world.locked
      ensures old(world.identity) == Some(token) ==> CarefulSince(old(run), run)
      ensures ok ==> world.pod.Live? && world.secret == Some(token) && world.identity == old(world.identity)
      ensures ok ==> world.installed
      ensures !ok && !failed ==> old(world.installed)
      ensures old(failed) ==> failed
    {
      Environment();
      if world.installed {
        return false;  // the release name is in use
      }
      var next: World := *;
      if !Step(world, ChartInstalled(token), next) {
        failed := true;
        return false;
      }
      label before:
      Act(ChartInstalled(token), next);
      if old(world.identity) == Some(token) {
        CarefulAct(old@before(run), run, ChartInstalled(token));
        CarefulChains(old(run), old@before(run), run);
      }
      ok := next.installed && next.pod.Live? && next.secret == Some(token);
      failed := failed || !ok;
    }

    method CreatePod() returns (ok: bool)
      requires Valid() && world.locked
      modifies this
      ensures Valid() && Extends(old(run), run) && world.locked
      ensures old(world.installed && world.identity.Some? && world.secret == world.identity)
              ==> CarefulSince(old(run), run)
      ensures ok ==> world.pod.Live? && world.secret == old(world.secret) && world.identity == old(world.identity)
      ensures ok ==> world.installed == old(world.installed)
      ensures !ok && !failed ==> !old(world.pod).Gone?
      ensures old(failed) ==> failed
    {
      Environment();
      var broken: bool := *;
      failed := failed || broken;
      if broken || !world.pod.Gone? {
        return false;
      }
      label before:
      Act(PodCreated, world.(pod := Live(Provisioning)));
      if old(world.installed && world.identity.Some? && world.secret == world.identity) {
        CarefulAct(old@before(run), run, PodCreated);
        CarefulChains(old(run), old@before(run), run);
      }
      ok := true;
    }

    /** A pod that is gone or already being deleted counts as deleted. */
    method DeletePod(stopRequested: bool) returns (ok: bool)
      requires Valid() && world.locked
      modifies this
      ensures Valid() && CarefulSince(old(run), run)
      ensures Untouched(old(world).(pod := world.pod), world)
      ensures !old(world.pod).Live? ==> !world.pod.Live?
      ensures ok ==> !world.pod.Live?
      ensures failed == (old(failed) || !ok)
    {
      Environment();
      var broken: bool := *;
      failed := failed || broken;
      ok := !broken;
      if ok && world.pod.Live? {
        var gone: bool := *;
        label before:
        Act(PodDeleted(stopRequested), world.(pod := if gone then Gone else Deleting(stopRequested, false)));
        CarefulAct(old@before(run), run, PodDeleted(stopRequested));
        CarefulChains(old(run), old@before(run), run);
      }
    }

    /** The release goes last: an uninstall that fails may have removed anything, one that
        succeeds has removed the release and asked for the pod to be deleted. */
    method Uninstall() returns (ok: bool)
      requires Valid() && world.locked
      modifies this
      ensures Valid() && OrderlySince(old(run), run) && world.locked
      ensures ok ==> !world.installed && !world.pod.Live?
      ensures !old(world.pod).Live? ==> !world.pod.Live?
      ensures world.identity == old(world.identity)
      ensures world.secret == old(world.secret) || !world.pod.Live?
      ensures world.installed == old(world.installed) || !world.pod.Live?
      ensures failed == (old(failed) || !ok)
    {
      Environment();
      CarefulIsOrderly(old(run), run);
      var next: World := *;
      ok := false;
      if Step(world, ChartUninstalled, next) {
        ok := !next.installed && !next.pod.Live?;
        label before:
        Act(ChartUninstalled, next);
        OrderlyAct(old@before(run), run, ChartUninstalled);
        OrderlyChains(old(run), old@before(run), run);
      }
      failed := failed || !ok;
    }
  }

  /** The release is installed, its live pod reads token and the identity service records it. */
  predicate Serves(w: World, token: nat) {
    w.installed && w.pod.Live? && w.secret == w.identity == Some(token)
  }

  ghost predicate ServedSince(run: Run, i: nat, token: nat) {
    exists m :: i <= m < |run.worlds| && Serves(run.worlds[m], token)
  }

  /** Another request is starting the pod. */
  predicate Coming(pod: Pod) {
    pod == Live(Provisioning) || pod == Live(Pulling)
  }

  /** The pod was being deleted on a node that is lost. */
  ghost predicate FoundLost(run: Run, i: nat) {
    exists m :: i <= m < |run.worlds| && run.worlds[m].pod.Deleting? && run.worlds[m].pod.nodeLost
  }

  ghost predicate FoundUp(run: Run, i: nat) {
    exists m :: i <= m < |run.worlds| && (run.worlds[m].pod == Live(Running) || Coming(run.worlds[m].pod))
  }

  class Workspace {
    const services: Services
    var pat: Option<nat>

    constructor (services: Services)
      ensures this.services == services
    {
      this.services := services;
      pat := None;
    }

    method MintPAT() returns (ok: bool)
      requires services.Valid() && services.world.locked && !services.world.pod.Live?
      modifies this, services
      ensures services.Valid() && CarefulSince(old(services.run), services.run)
      ensures Untouched(old(services.world).(identity := services.world.identity, next := services.world.next), services.world)
      ensures ok ==> pat == services.world.identity == Some(old(services.world.next))
      ensures services.failed == (old(services.failed) || !ok)
    {
      var r := services.CreateAccessToken();
      if r.Err? {
        return false;
      }
      pat := Some(r.value);
      ok := true;
    }

    method DoInstallation() returns (r: Result<(), ServiceError>)
      requires services.Valid() && services.world.locked && !services.world.pod.Live?
      modifies this, services
      ensures services.Valid() && services.world.locked && CarefulSince(old(services.run), services.run)
      ensures r.Ok? ==> pat.Some? && pat.value >= old(services.world.next)
                        && ServedSince(services.run, Last(old(services.run)), pat.value)
      ensures r.Err? ==> r == Err(ServiceFailed) && (services.failed || old(services.world.installed))
      ensures old(services.failed) ==> services.failed
    {
      var minted := MintPAT();
      if !minted {
        return Err(ServiceFailed);
      }
      label minted:
      // shared storages, manifest hash, headless service, web-proxy alias
      var prepared := services.OtherCall();
      label prepared:
      CarefulChains(old(services.run), old@minted(services.run), services.run);
      if !prepared {
        return Err(ServiceFailed);
      }
      var ok := services.Install(pat.value);
      label installed:
      CarefulChains(old(services.run), old@prepared(services.run), services.run);
      if !ok {
        return Err(ServiceFailed);
      }
      assert Serves(services.world, pat.value);
      r := Watch();
      CarefulChains(old(services.run), old@installed(services.run), services.run);
      assert Serves(services.run.worlds[Last(old@installed(services.run))], pat.value);
    }

    method Watch() returns (r: Result<(), ServiceError>)
      requires services.Valid()
      modifies services
      ensures services.Valid() && CarefulSince(old(services.run), services.run)
      ensures Untouched(old(services.world), services.world)
      ensures services.failed == (old(services.failed) || r.Err?) && (r.Err? ==> r == Err(ServiceFailed))
    {
      var ok := services.OtherCall();
      r := if ok then Ok(()) else Err(ServiceFailed);
    }

    method DoStart() returns (r: Result<(), ServiceError>)
      requires services.Valid() && services.world.locked && !services.world.pod.Live? && services.world.installed
      modifies this, services
      ensures services.Valid() && services.world.locked && CarefulSince(old(services.run), services.run)
      ensures r.Ok? ==> pat.Some? && pat.value >= old(services.world.next)
                        && ServedSince(services.run, Last(old(services.run)), pat.value)
      ensures r.Err? ==>
                r == Err(ServiceFailed) && (services.failed || !old(services.world.pod).Gone? || old(services.world.secret).None?)
      ensures old(services.failed) ==> services.failed
    {
      var minted := MintPAT();
      if !minted {
        return Err(ServiceFailed);
      }
      label minted:
      var refreshed := services.UpdateSecret(pat.value);
      label refreshed:
      CarefulChains(old(services.run), old@minted(services.run), services.run);
      if !refreshed {
        return Err(ServiceFailed);
      }
      // the pod's manifest from the release, web-proxy alias
      var prepared := services.OtherCall();
      label prepared:
      CarefulChains(old(services.run), old@refreshed(services.run), services.run);
      if !prepared {
        return Err(ServiceFailed);
      }
      var created := services.CreatePod();
      label created:
      CarefulChains(old(services.run), old@prepared(services.run), services.run);
      if !created {
        return Err(ServiceFailed);
      }
      assert Serves(services.world, pat.value);
      r := Watch();
      CarefulChains(old(services.run), old@created(services.run), services.run);
      assert Serves(services.run.worlds[Last(old@created(services.run))], pat.value);
    }

    /** Polls until the pod is gone; timeout 0 means the default. */
    method WaitForPodGone(timeout: nat) returns (r: Result<(), ServiceError>)
      requires services.Valid()
      modifies services
      ensures services.Valid() && CarefulSince(old(services.run), services.run)
      ensures Untouched(old(services.world), services.world)
      ensures r.Ok? ==> services.world.pod.Gone?
      ensures r == Err(Timeout) ==>
        services.world.now >= old(services.world.now) + if timeout == 0 then DEFAULT_TIMEOUT else timeout
      ensures r.Err? && r != Err(Timeout) ==> r == Err(ServiceFailed) && services.failed
      ensures old(services.failed) ==> services.failed
    {
      var start := services.world.now;
      var limit := start + if timeout == 0 then DEFAULT_TIMEOUT else timeout;
      while true
        invariant services.Valid() && CarefulSince(old(services.run), services.run)
        invariant Untouched(old(services.world), services.world)
        invariant old(services.failed) ==> services.failed
        decreases limit - services.world.now
      {
        label top:
        var pod := services.GetPod();
        label got:
        CarefulChains(old(services.run), old@top(services.run), services.run);
        if pod.Err? {
          return Err(ServiceFailed);
        }
        if pod.value.Gone? {
          return Ok(());
        }
        if services.world.now >= limit {
          return Err(Timeout);
        }
        services.Sleep(POLL_INTERVAL);
        CarefulChains(old(services.run), old@got(services.run), services.run);
      }
    }

    method EnsureNodeReachable() returns (r: Result<(), ServiceError>)
      requires services.Valid()
      modifies services
      ensures services.Valid() && CarefulSince(old(services.run), services.run)
      ensures Untouched(old(services.world), services.world)
      ensures r == Err(NodeUnreachable) ==> services.world.pod.Deleting? && services.world.pod.nodeLost
      ensures r == Err(ServiceFailed) || r == Err(NodeUnreachable) || r == Ok(())
      ensures services.failed == (old(services.failed) || r == Err(ServiceFailed))
    {
      var pod := services.GetPod();
      if pod.Err? {
        return Err(ServiceFailed);
      }
      if pod.value.Deleting? && pod.value.nodeLost {
        return Err(NodeUnreachable);
      }
      r := Ok(());
    }

    /** Deletes the pod alone. It is labelled first, so that its last moments are told
        apart from a termination. */
    method StopPod() returns (r: Result<(), ServiceError>)
      requires services.Valid() && services.world.locked
      modifies services
      ensures services.Valid() && CarefulSince(old(services.run), services.run)
      ensures Untouched(old(services.world).(pod := services.world.pod), services.world)
      ensures !old(services.world.pod).Live? ==> !services.world.pod.Live?
      ensures r.Ok? || r == Err(NodeUnreachable) ==> !services.world.pod.Live?
      ensures r.Err? ==> r.error == NodeUnreachable || r.error == ServiceFailed
      ensures r == Err(NodeUnreachable) ==> FoundLost(services.run, Last(old(services.run)))
      ensures services.failed == (old(services.failed) || r == Err(ServiceFailed))
    {
      r := EnsureNodeReachable();
      label checked:
      if r.Err? {
        assert services.run.worlds[Last(services.run)] == services.world;
        return;
      }
      var labelled := services.OtherCall();
      label labelled:
      CarefulChains(old(services.run), old@checked(services.run), services.run);
      if !labelled {
        return Err(ServiceFailed);
      }
      var ok := services.DeletePod(true);
      CarefulChains(old(services.run), old@labelled(services.run), services.run);
      r := if ok then Ok(()) else Err(ServiceFailed);
    }

    /** A release exists and pod is not running: only the pod is recycled, unless the
        release has gone meanwhile. */
    method ProvisionExisting(pod: Pod, timeout: nat) returns (r: Result<(), ServiceError>)
      requires services.Valid() && services.world.locked && pod != Gone && pod != Live(Running)
      requires pod == services.world.pod
      modifies this, services
      ensures services.Valid() && services.world.locked && CarefulSince(old(services.run), services.run)
      ensures r.Ok? && !Coming(pod) ==> pat.Some? && pat.value >= old(services.world.next)
                                        && ServedSince(services.run, Last(old(services.run)), pat.value)
      ensures r == Err(ServiceFailed) ==> services.failed || old(services.world.secret).None?
      ensures r == Err(NodeUnreachable) ==> FoundLost(services.run, Last(old(services.run)))
      ensures r == Err(Timeout) ==>
        services.world.now >= old(services.world.now) + if timeout == 0 then DEFAULT_TIMEOUT else timeout
      ensures old(services.failed) ==> services.failed
    {
      if pod == Live(Provisioning) || pod == Live(Pulling) {
        r := Watch();  // another request is starting the pod
        return;
      } else if pod.Deleting? && pod.nodeLost {
        NothingYet(services.run);
        assert services.run.worlds[Last(services.run)] == services.world;
        return Err(NodeUnreachable);
      } else if pod.Live? {
        r := StopPod();
        if r.Err? {
          return;
        }
      } else {
        NothingYet(services.run);
      }
      label stopped:
      r := WaitForPodGone(timeout);
      label waited:
      CarefulChains(old(services.run), old@stopped(services.run), services.run);
      if r.Err? {
        return;
      }
      var installed := services.IsInstalled();
      label rechecked:
      CarefulChains(old(services.run), old@waited(services.run), services.run);
      if installed.Err? {
        return Err(ServiceFailed);
      }
      if installed.value {
        r := DoStart();
      } else {
        r := DoInstallation();
      }
      CarefulChains(old(services.run), old@rechecked(services.run), services.run);
    }

    /** Provision while it holds the lock. Every moment of it, so every point it may die at,
        leaves a live pod in step if it was in step before. A pod that was not is left so
        exactly when it is live throughout: then success means no more than that it was
        found running or on its way, and any other success means a new token, served by a
        live pod at some moment since. */
    method Provision(timeout: nat) returns (r: Result<(), ServiceError>)
      requires services.Valid() && services.world.locked && Backed(services.world)
      modifies this, services
      ensures services.Valid() && services.world.locked && CarefulSince(old(services.run), services.run)
      ensures InStep(old(services.world)) ==> StaysInStep(old(services.run), services.run)
      ensures InStep(services.world) <==>
              InStep(old(services.world)) || !LiveFrom(services.run, Last(old(services.run)), Last(services.run))
      ensures r.Ok? ==>
              || FoundUp(services.run, Last(old(services.run)))
              || (pat.Some? && pat.value >= old(services.world.next)
                  && ServedSince(services.run, Last(old(services.run)), pat.value))
      ensures r == Err(ServiceFailed) ==> services.failed || (old(services.world.installed) && old(services.world.secret).None?)
      ensures r == Err(NodeUnreachable) ==> FoundLost(services.run, Last(old(services.run)))
      ensures r == Err(Timeout) ==>
        services.world.now >= old(services.world.now) + if timeout == 0 then DEFAULT_TIMEOUT else timeout
      ensures !old(services.world.installed) || (old(services.world.pod).Gone? && old(services.world.secret).Some?) ==>
                || services.failed
                || (r.Ok? && pat.Some? && pat.value >= old(services.world.next)
                    && ServedSince(services.run, Last(old(services.run)), pat.value))
      ensures old(services.failed) ==> services.failed
    {
      var present := services.IsInstalled();
      label looked:
      if present.Err? {
        r := Err(ServiceFailed);
      } else if !present.value {
        r := DoInstallation();
        CarefulChains(old(services.run), old@looked(services.run), services.run);
      } else {
        var pod := services.GetPod();
        label got:
        CarefulChains(old(services.run), old@looked(services.run), services.run);
        if pod.Err? {
          r := Err(ServiceFailed);
        } else if pod.value == Live(Running) {
          r := Ok(());
        } else {
          if pod.value.Gone? {
            r := DoStart();
          } else {
            r := ProvisionExisting(pod.value, timeout);
          }
          CarefulChains(old(services.run), old@got(services.run), services.run);
          assert services.run.worlds[Last(old@got(services.run))] == old@got(services.world);
        }
      }
      CarefulOutOfStep(old(services.run), services.run);
    }

    /** Stop while it holds the lock. The token goes first, its deletion is best effort.
        Exactly when the token is gone and the pod is not deleted, a pod that was in step is
        left live and out of step; a pod on a lost node is being deleted already. */
    method Stop(delay: nat) returns (r: Result<(), ServiceError>, tokenDeleted: bool)
      requires services.Valid() && services.world.locked && Backed(services.world)
      modifies services
      ensures services.Valid() && services.world.locked && OrderlySince(old(services.run), services.run)
      ensures InStep(services.world) <==> !services.world.pod.Live? || (!tokenDeleted && InStep(old(services.world)))
      ensures r.Ok? || r == Err(NodeUnreachable) ==> !services.world.pod.Live?
      ensures r.Err? ==> r.error == NodeUnreachable || r.error == ServiceFailed
      ensures !tokenDeleted ==> CarefulSince(old(services.run), services.run)
      ensures r == Err(ServiceFailed) ==> services.failed
      ensures r == Err(NodeUnreachable) ==> FoundLost(services.run, Last(old(services.run)))
      ensures !services.failed && r.Ok? ==> services.world.identity.None? && services.world.installed == old(services.world.installed)
      ensures old(services.failed) ==> services.failed
    {
      tokenDeleted := false;
      if delay > 0 {
        services.Sleep(delay);
        label slept:
        // the node may have been lost during the delay
        r := EnsureNodeReachable();
        CarefulChains(old(services.run), old@slept(services.run), services.run);
        if r.Err? {
          CarefulIsOrderly(old(services.run), services.run);
          assert services.run.worlds[Last(services.run)] == services.world;
          return;
        }
      } else {
        NothingYet(services.run);
      }
      label started:
      CarefulIsOrderly(old(services.run), services.run);
      tokenDeleted := services.DeleteAccessToken();
      label deleted:
      OrderlyChains(old(services.run), old@started(services.run), services.run);
      r := StopPod();
      CarefulIsOrderly(old@deleted(services.run), services.run);
      OrderlyChains(old(services.run), old@deleted(services.run), services.run);
      if !tokenDeleted {
        CarefulChains(old(services.run), old@started(services.run), old@deleted(services.run));
        CarefulChains(old(services.run), old@deleted(services.run), services.run);
      }
    }

    /** Terminate while it holds the lock. */
    method Uninstall(delay: nat) returns (ok: bool, tokenDeleted: bool)
      requires services.Valid() && services.world.locked && Backed(services.world)
      modifies services
      ensures services.Valid() && services.world.locked && OrderlySince(old(services.run), services.run)
      ensures ok ==> !services.world.pod.Live? && !services.world.installed
      ensures !ok ==> services.failed
      ensures !services.failed ==> services.world.identity.None?
      ensures old(services.failed) ==> services.failed
      ensures InStep(services.world) <==> !services.world.pod.Live? || (!tokenDeleted && InStep(old(services.world)))
    {
      NothingYet(services.run);
      if delay > 0 {
        services.Sleep(delay);
      }
      label started:
      CarefulIsOrderly(old(services.run), services.run);
      tokenDeleted := services.DeleteAccessToken();
      label deleted:
      OrderlyChains(old(services.run), old@started(services.run), services.run);
      ok := services.Uninstall();
      label uninstalled:
      OrderlyChains(old(services.run), old@deleted(services.run), services.run);
      if ok {
        var swept := services.OtherCall();  // leftovers; a failure is only logged
        CarefulIsOrderly(old@uninstalled(services.run), services.run);
        OrderlyChains(old(services.run), old@uninstalled(services.run), services.run);
      }
    }
  }

  datatype Request = ProvisionRequest(timeout: nat) | StopRequest(delay: nat) | TerminateRequest(delay: nat)

  /** Any requests, one after the other as the lock has it, each failing or succeeding as it
      may. Whenever nobody has the lock, a pod is out of step exactly when some stop or
      terminate gave the lock back with the token deleted and the pod alive, and the pod has
      been live ever since; so never if every stop and terminate does what it set out to. */
  method Serve(w: Workspace, requests: seq<Request>)
    requires w.services.Valid() && InStep(w.services.world) && !w.services.world.locked
    modifies w, w.services
    ensures w.services.Valid() && OrderlySince(old(w.services.run), w.services.run) && !w.services.world.locked
    ensures forall m :: Last(old(w.services.run)) <= m <= Last(w.services.run) && !w.services.run.worlds[m].locked ==>
              (!InStep(w.services.run.worlds[m]) <==> LeftBehind(w.services.run, Last(old(w.services.run)), m))
  {
    ghost var start := w.services.run;
    for i := 0 to |requests|
      invariant w.services.Valid() && OrderlySince(start, w.services.run) && !w.services.world.locked
    {
      label idle:
      w.services.Environment();
      CarefulIsOrderly(old@idle(w.services.run), w.services.run);
      OrderlyChains(start, old@idle(w.services.run), w.services.run);
      label free:
      w.services.Lock();
      OrderlyChains(start, old@free(w.services.run), w.services.run);
      OrderlyBacked(w.services.run, Last(start), Last(w.services.run));
      label held:
      match requests[i] {
        case ProvisionRequest(timeout) =>
          var r := w.Provision(timeout);
          CarefulIsOrderly(old@held(w.services.run), w.services.run);
        case StopRequest(delay) =>
          var r, deleted := w.Stop(delay);
        case TerminateRequest(delay) =>
          var ok, deleted := w.Uninstall(delay);
      }
      OrderlyChains(start, old@held(w.services.run), w.services.run);
      label done:
      w.services.Unlock();
      OrderlyChains(start, old@done(w.services.run), w.services.run);
    }
    forall m | Last(start) <= m <= Last(w.services.run) && !w.services.run.worlds[m].locked
      ensures !InStep(w.services.run.worlds[m]) <==> LeftBehind(w.services.run, Last(start), m)
    {
      FreeOutOfStepIff(w.services.run, Last(start), m);
    }
  }

  /** The world of every moment from the end of r to the end of s is in step. */
  ghost predicate StaysInStep(r: Run, s: Run) {
    && |r.actions| < |s.worlds|
    && forall k :: |r.actions| <= k < |s.worlds| ==> InStep(s.worlds[k])
  }

  lemma InStepMeanwhile(r: Run, s: Run)
    requires Legal(r) && Legal(s) && CarefulSince(r, s) && InStep(r.worlds[Last(r)])
    ensures StaysInStep(r, s) && InStep(s.worlds[Last(s)])
  {
    forall k | Last(r) <= k < |s.worlds|
      ensures InStep(s.worlds[k])
    {
      CarefulStaysInStep(s, Last(r), k);
    }
  }

  /** A careful stretch ends in step exactly when it began so or the pod was not live at some
      moment of it. */
  lemma CarefulOutOfStep(r: Run, s: Run)
    requires Legal(r) && Legal(s) && CarefulSince(r, s) && Backed(r.worlds[Last(r)])
    ensures InStep(s.worlds[Last(s)]) <==> InStep(r.worlds[Last(r)]) || !LiveFrom(s, Last(r), Last(s))
    ensures InStep(r.worlds[Last(r)]) ==> StaysInStep(r, s)
  {
    CarefulIsOrderly(r, s);
    OutOfStepIff(s, Last(r), Last(s));
    forall e | Last(r) <= e < Last(s)
      ensures !s.actions[e].TokenDeleted?
    {
      assert CarefulStep(s.worlds[e], s.actions[e]);
    }
    if InStep(r.worlds[Last(r)]) {
      InStepMeanwhile(r, s);
    }
  }

  lemma CarefulIsOrderly(r: Run, s: Run)
    requires CarefulSince(r, s)
    ensures OrderlySince(r, s)
  {
  }

  lemma OrderlyAct(r: Run, s: Run, a: Action)
    requires Legal(r) && Legal(s) && |s.worlds| == |r.worlds| + 1
    requires s == History(r.worlds + [s.worlds[Last(s)]], r.actions + [a]) && OrderlyStep(r.worlds[Last(r)], a)
    ensures OrderlySince(r, s)
  {
    assert s.worlds[Last(r)] == r.worlds[Last(r)];
  }

  lemma OrderlyChains(r: Run, s: Run, t: Run)
    requires Legal(r) && Legal(s) && Legal(t) && OrderlySince(r, s) && OrderlySince(s, t)
    ensures OrderlySince(r, t)
  {
    forall k | Last(r) <= k < Last(t)
      ensures OrderlyStep(t.worlds[k], t.actions[k])
    {
      if k < Last(s) {
        assert t.actions[k] == s.actions[k] && t.worlds[k] == s.worlds[k];
      }
    }
  }

  lemma NothingYet(r: Run)
    requires Legal(r)
    ensures CarefulSince(r, r)
  {
  }

  lemma {:induction false} TimePasses(run: Run, i: nat, j: nat)
    requires Legal(run) && i <= j < |run.worlds|
    ensures run.worlds[i].now <= run.worlds[j].now
    decreases j
  {
    if i < j {
      TimePasses(run, i, j - 1);
      assert Step(run.worlds[j - 1], run.actions[j - 1], run.worlds[j]);
    }
  }

  /** The environment brings no pod to life and touches neither token nor release. */
  lemma {:induction false} EnvironmentKeeps(run: Run, i: nat, j: nat)
    requires Legal(run) && i <= j <= |run.actions|
    requires forall k :: i <= k < j ==> run.actions[k].Environment?
    ensures run.worlds[j] == run.worlds[i].(pod := run.worlds[j].pod, now := run.worlds[j].now)
    ensures run.worlds[i].pod.Gone? ==> run.worlds[j].pod.Gone?
    ensures !run.worlds[i].pod.Live? ==> !run.worlds[j].pod.Live?
    decreases j
  {
    if i < j {
      EnvironmentKeeps(run, i, j - 1);
      assert Step(run.worlds[j - 1], run.actions[j - 1], run.worlds[j]);
    }
  }

  lemma CarefulCall(r: Run, s: Run, own: seq<Action>)
    requires Legal(r) && Legal(s) && Then(r, s, own)
    requires forall n :: 0 <= n < |own| ==> CarefulStep(s.worlds[Last(s) - |own| + n], own[n])
    ensures CarefulSince(r, s)
  {
    forall k | Last(r) <= k < Last(s)
      ensures CarefulStep(s.worlds[k], s.actions[k])
    {
      if k >= Last(s) - |own| {
        var n := k - (Last(s) - |own|);
        assert s.actions[k] == s.actions[Last(s) - |own|..][n];
        assert CarefulStep(s.worlds[Last(s) - |own| + n], own[n]);
      }
    }
  }

  lemma CarefulAct(r: Run, s: Run, a: Action)
    requires Legal(r) && Legal(s) && |s.worlds| == |r.worlds| + 1
    requires s == History(r.worlds + [s.worlds[Last(s)]], r.actions + [a]) && CarefulStep(r.worlds[Last(r)], a)
    ensures CarefulSince(r, s)
  {
    assert s.worlds[Last(r)] == r.worlds[Last(r)];
  }

  lemma CarefulChains(r: Run, s: Run, t: Run)
    requires Legal(r) && Legal(s) && Legal(t) && CarefulSince(r, s) && CarefulSince(s, t)
    ensures CarefulSince(r, t)
  {
    forall k | Last(r) <= k < Last(t)
      ensures CarefulStep(t.worlds[k], t.actions[k])
    {
      if k < Last(s) {
        assert t.actions[k] == s.actions[k] && t.worlds[k] == s.worlds[k];
      }
    }
  }
}
