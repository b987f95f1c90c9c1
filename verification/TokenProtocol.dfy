/** The access token of one workspace, across the identity service, the pod's Secret and the
    pod (internal/workspace/provision.go, pat.go, workspace.go, internal/server/lifecycle.go).

    A run records the taking and the giving back of the workspace lock, every API call made
    while it is held, and whatever the kubelet and the clock do in between. The lock is taken
    to be exclusive. */
module TokenProtocol {
  import opened Prelude
  import opened Runs

  datatype Status = Running | Provisioning | Pulling | Stopped | Failing | Unknown

  datatype Pod = Gone | Live(status: Status) | Deleting(stopRequested: bool, nodeLost: bool)

  /** identity is the token the identity service records for the workspace, secret the one
      in the Secret its pod reads; locked says that some request has the lock. */
  datatype World = World(identity: Option<nat>, secret: Option<nat>, pod: Pod, installed: bool,
                         next: nat, now: nat, locked: bool)

  datatype Action =
    | Environment            // kubelet, clock, an eviction, a deletion by hand
    | Locked
    | Unlocked
    | TokenMinted
    | TokenDeleted
    | SecretUpdated(token: nat)
    | ChartInstalled(token: nat)   // also one that fails half-way
    | PodCreated
    | PodDeleted(stopRequested: bool)
    | ChartUninstalled             // also one that fails half-way

  type Run = History<World, Action>

  /** Nothing but the provisioner creates pods, writes tokens or installs charts. */
  predicate EnvironmentStep(w: World, v: World) {
    && v == w.(pod := v.pod, now := v.now) && w.now <= v.now
    && match w.pod
       case Gone => v.pod.Gone?
       case Live(_) => true
       case Deleting(_, _) => !v.pod.Live?
  }

  /** Secrets are installed before pods and removed after them, so a call that stops
      half-way leaves no pod without its Secret. Nobody takes a lock that is held, and the
      provisioner acts only while it is. */
  predicate Step(w: World, a: Action, v: World) {
    (a.Environment? || w.locked != a.Locked?) &&
    match a
    case Environment => EnvironmentStep(w, v)
    case Locked => v == w.(locked := true)
    case Unlocked => v == w.(locked := false)
    case TokenMinted => v == w.(identity := Some(w.next), next := w.next + 1)
    case TokenDeleted => v == w.(identity := None)
    case SecretUpdated(token) => w.secret.Some? && v == w.(secret := Some(token))
    case ChartInstalled(token) =>
      && !w.installed
      && v == w.(installed := v.installed, secret := v.secret, pod := v.pod)
      && (v.secret == w.secret || (v.installed && v.secret == Some(token)))
      && (v.pod == w.pod || (w.pod.Gone? && v.pod.Live? && v.installed && v.secret == Some(token)))
    case PodCreated => w.pod.Gone? && v == w.(pod := v.pod) && v.pod.Live?
    case PodDeleted(stopRequested) => w.pod.Live? && v == w.(pod := v.pod) && (v.pod.Gone? || v.pod == Deleting(stopRequested, false))
    case ChartUninstalled =>
      && v == w.(installed := v.installed, secret := v.secret, pod := v.pod)
      && (v.pod == w.pod || (w.pod.Live? && !v.pod.Live?))
      && (v.installed == w.installed || (!v.installed && !v.pod.Live?))
      && (v.secret == w.secret || (v.secret.None? && !v.pod.Live?))
  }

  ghost predicate Legal(run: Run) {
    && |run.worlds| == |run.actions| + 1
    && forall k :: 0 <= k < |run.actions| ==> Step(run.worlds[k], run.actions[k], run.worlds[k + 1])
  }

  /** A live pod reads the token the identity service records. */
  predicate InStep(w: World) {
    w.pod.Live? ==> w.installed && w.identity.Some? && w.secret == w.identity
  }

  /** Between i and j only the recorded token is handed to a Secret or a chart, no token is
      deleted, none is minted while a pod is live, and the release is never removed. */
  ghost predicate Careful(run: Run, i: nat, j: nat) {
    && i <= j <= |run.actions| && |run.worlds| == |run.actions| + 1
    && forall k :: i <= k < j ==> CarefulStep(run.worlds[k], run.actions[k])
  }

  predicate CarefulStep(w: World, a: Action) {
    match a
    case TokenMinted => !w.pod.Live?
    case TokenDeleted | ChartUninstalled | Locked | Unlocked => false
    case SecretUpdated(token) => !w.pod.Live? && w.identity == Some(token)
    case ChartInstalled(token) => w.identity == Some(token)
    case PodCreated => w.installed && w.identity.Some? && w.secret == w.identity
    case _ => true
  }

  /** Careful steps never get a live pod out of step with the identity service, at any
      moment: so not even if the provisioner dies between two of them. */
  lemma {:induction false} CarefulStaysInStep(run: Run, i: nat, j: nat)
    requires Legal(run) && Careful(run, i, j)
    requires InStep(run.worlds[i])
    ensures InStep(run.worlds[j])
    decreases j
  {
    if i < j {
      CarefulStaysInStep(run, i, j - 1);
      assert Step(run.worlds[j - 1], run.actions[j - 1], run.worlds[j]);
      assert CarefulStep(run.worlds[j - 1], run.actions[j - 1]);
    }
  }

  /** Careful steps never remove a release, and with it the user's volumes. */
  lemma {:induction false} CarefulKeepsRelease(run: Run, i: nat, j: nat)
    requires Legal(run) && Careful(run, i, j)
    requires run.worlds[i].installed
    ensures run.worlds[j].installed
    decreases j
  {
    if i < j {
      CarefulKeepsRelease(run, i, j - 1);
      assert Step(run.worlds[j - 1], run.actions[j - 1], run.worlds[j]);
      assert CarefulStep(run.worlds[j - 1], run.actions[j - 1]);
    }
  }

  /** A live pod belongs to an installed release. */
  predicate Backed(w: World) {
    w.pod.Live? ==> w.installed
  }

  /** What the code does: careful steps, and deleting the token, uninstalling the release and
      passing on the lock. */
  predicate OrderlyStep(w: World, a: Action) {
    CarefulStep(w, a) || a.TokenDeleted? || a.ChartUninstalled? || a.Locked? || a.Unlocked?
  }

  ghost predicate Orderly(run: Run, i: nat, j: nat) {
    && i <= j <= |run.actions| && |run.worlds| == |run.actions| + 1
    && forall k :: i <= k < j ==> OrderlyStep(run.worlds[k], run.actions[k])
  }

  ghost predicate LiveFrom(run: Run, i: nat, j: nat) {
    i <= j < |run.worlds| && forall k :: i <= k <= j ==> run.worlds[k].pod.Live?
  }

  /** The token was deleted since moment i, from a pod that has been live ever since. */
  ghost predicate Orphaned(run: Run, i: nat, j: nat) {
    j <= |run.actions| && exists e: nat :: i <= e < j && run.actions[e].TokenDeleted? && LiveFrom(run, e, j)
  }

  lemma {:induction false} OrderlyBacked(run: Run, i: nat, j: nat)
    requires Legal(run) && Orderly(run, i, j) && Backed(run.worlds[i])
    ensures Backed(run.worlds[j])
    decreases j
  {
    if i < j {
      OrderlyBacked(run, i, j - 1);
      assert Step(run.worlds[j - 1], run.actions[j - 1], run.worlds[j]);
      assert OrderlyStep(run.worlds[j - 1], run.actions[j - 1]);
    }
  }

  /** A pod is out of step at a moment exactly when it has been so since the start, or its
      token was deleted and it has been live ever since: nothing else gets a pod out of step,
      and nothing but a new pod gets it back. */
  lemma {:induction false} OutOfStepIff(run: Run, i: nat, j: nat)
    requires Legal(run) && Orderly(run, i, j) && Backed(run.worlds[i])
    ensures !InStep(run.worlds[j]) <==> (!InStep(run.worlds[i]) && LiveFrom(run, i, j)) || Orphaned(run, i, j)
    decreases j
  {
    if i < j {
      OutOfStepIff(run, i, j - 1);
      OrderlyBacked(run, i, j - 1);
      var w, a, v := run.worlds[j - 1], run.actions[j - 1], run.worlds[j];
      assert Step(w, a, v) && OrderlyStep(w, a);
      LiveOneMore(run, i, j);
      if w.pod.Live? && v.pod.Live? {
        assert InStep(v) <==> InStep(w) && !a.TokenDeleted?;
      } else if v.pod.Live? {
        assert InStep(v);
      }
    }
  }

  lemma LiveOneMore(run: Run, i: nat, j: nat)
    requires i < j <= |run.actions| && |run.worlds| == |run.actions| + 1
    ensures LiveFrom(run, i, j) <==> LiveFrom(run, i, j - 1) && run.worlds[j].pod.Live?
    ensures Orphaned(run, i, j) <==>
            && run.worlds[j - 1].pod.Live? && run.worlds[j].pod.Live?
            && (Orphaned(run, i, j - 1) || run.actions[j - 1].TokenDeleted?)
  {
    if Orphaned(run, i, j) {
      var e: nat :| i <= e < j && run.actions[e].TokenDeleted? && LiveFrom(run, e, j);
      assert e < j - 1 ==> LiveFrom(run, e, j - 1);
    }
    if Orphaned(run, i, j - 1) && run.worlds[j].pod.Live? {
      var e: nat :| i <= e < j - 1 && run.actions[e].TokenDeleted? && LiveFrom(run, e, j - 1);
      assert LiveFrom(run, e, j);
    }
    assert run.worlds[j - 1].pod.Live? && run.worlds[j].pod.Live? ==> LiveFrom(run, j - 1, j);
  }

  /** The request that gave the lock back at moment u had deleted the token and left the
      pod live. */
  ghost predicate HalfDone(run: Run, i: nat, u: nat) {
    && i < u <= |run.actions| && |run.worlds| == |run.actions| + 1 && run.actions[u - 1].Unlocked?
    && exists e: nat :: i <= e < u && run.actions[e].TokenDeleted? && LiveFrom(run, e, u) && HeldFrom(run, e, u)
  }

  ghost predicate HeldFrom(run: Run, e: nat, u: nat) {
    u < |run.worlds| && forall k :: e <= k < u ==> run.worlds[k].locked
  }

  ghost predicate LeftBehind(run: Run, i: nat, m: nat) {
    exists u: nat :: u <= m && HalfDone(run, i, u) && LiveFrom(run, u, m)
  }

  /** While nobody has the lock, a pod is out of step exactly when some request gave the lock
      back half done and its pod has been live ever since, whatever requests came after. */
  lemma FreeOutOfStepIff(run: Run, i: nat, m: nat)
    requires Legal(run) && Orderly(run, i, m) && InStep(run.worlds[i]) && !run.worlds[m].locked
    ensures !InStep(run.worlds[m]) <==> LeftBehind(run, i, m)
  {
    OutOfStepIff(run, i, m);
    if Orphaned(run, i, m) {
      var e: nat :| i <= e < m && run.actions[e].TokenDeleted? && LiveFrom(run, e, m);
      assert Step(run.worlds[e], run.actions[e], run.worlds[e + 1]);
      var u := FirstFree(run, e, m);
      assert LiveFrom(run, e, u) && LiveFrom(run, u, m);
      assert HalfDone(run, i, u);
    }
    if LeftBehind(run, i, m) {
      var u: nat :| u <= m && HalfDone(run, i, u) && LiveFrom(run, u, m);
      var e: nat :| i <= e < u && run.actions[e].TokenDeleted? && LiveFrom(run, e, u) && HeldFrom(run, e, u);
      assert LiveFrom(run, e, m);
    }
  }

  lemma {:induction false} FirstFree(run: Run, e: nat, m: nat) returns (u: nat)
    requires Legal(run) && e < m < |run.worlds| && run.worlds[e].locked && !run.worlds[m].locked
    ensures e < u <= m && run.actions[u - 1].Unlocked? && HeldFrom(run, e, u)
    decreases m - e
  {
    assert Step(run.worlds[e], run.actions[e], run.worlds[e + 1]);
    if run.worlds[e + 1].locked {
      u := FirstFree(run, e + 1, m);
    } else {
      u := e + 1;
    }
  }

  /** Stop and terminate delete the token before the pod. If the call that deletes the pod
      fails, the lock is given back with the pod alive and without the token it reads, and a
      provision that finds it running gives the lock back with the pod as it is. */
  lemma StopWithoutDeletionBreaksStep() returns (run: Run)
    ensures Legal(run) && run.actions == [Locked, TokenDeleted, Unlocked, Locked, Unlocked]
    ensures InStep(run.worlds[0]) && Orderly(run, 0, 5)
    ensures forall m <- {3, 5} :: !run.worlds[m].locked && run.worlds[m].pod == Live(Running) && !InStep(run.worlds[m])
  {
    var w := World(Some(0), Some(0), Live(Running), true, 1, 0, false);
    var v := w.(identity := None);
    run := History([w, w.(locked := true), v.(locked := true), v, v.(locked := true), v],
               [Locked, TokenDeleted, Unlocked, Locked, Unlocked]);
  }
}
