/** Deriving a workspace's state from its pod and the events about it
    (internal/workspace/podstate.go). Messages are left out, apart from whether there is a
    critical error. */
module PodState {
  import opened Prelude
  import opened Sequences

  datatype Stage =
    | Scheduling | Pulling | Initializing | Starting | Running
    | Stopping | Terminating | NodeLost | Stopped | Failed | Unknown

  datatype Status =
    | StatusProvisioning | StatusPulling | StatusRunning | StatusStopping | StatusTerminating
    | StatusNodeLost | StatusStopped | StatusFailing | StatusUnknown

  function StageToStatus(s: Stage): Status {
    match s
    case Scheduling | Initializing | Starting => StatusProvisioning
    case Pulling => StatusPulling
    case Running => StatusRunning
    case Stopping => StatusStopping
    case Terminating => StatusTerminating
    case NodeLost => StatusNodeLost
    case Stopped => StatusStopped
    case Failed => StatusFailing
    case Unknown => StatusUnknown
  }

  datatype Container = Container(state: ContainerState, ready: bool, restarts: nat)

  datatype ContainerState = Unset | Waiting(reason: string) | Executing | Terminated(exitCode: int)

  datatype Phase = PhasePending | PhaseRunning | PhaseSucceeded | PhaseFailed | PhaseUnknown

  /** deletion is the deadline of a deletion asked for, ready the Ready conditions in order. */
  datatype Pod = Pod(
    deletion: Option<int>, stopRequested: bool, node: string, phase: Phase, ready: seq<bool>,
    init: seq<Container>, containers: seq<Container>)

  /** last is None for an event that records no last time. */
  datatype Event = Event(
    uid: string, kind: string, reason: string, path: string, last: Option<int>, created: int, count: nat)

  datatype Severity = Info | Warning | Critical

  datatype Snapshot = Snapshot(stage: Stage, status: Status, restarts: nat, critical: bool)

  const NODE_LOST_GRACE := 15

  function Time(e: Event): int {
    e.last.GetOr(e.created)
  }

  // ---- parts of a pod

  function MaxRestarts(s: seq<Container>): (r: nat)
    ensures forall c <- s :: c.restarts <= r
    ensures r == 0 || exists c <- s :: c.restarts == r
  {
    if s == [] then 0
    else
      var rest := MaxRestarts(s[1..]);
      assert s == [s[0]] + s[1..];
      if s[0].restarts > rest then s[0].restarts else rest
  }

  function TotalRestarts(s: seq<Container>): nat {
    if s == [] then 0 else s[0].restarts + TotalRestarts(s[1..])
  }

  function LastReady(s: seq<bool>): bool {
    s != [] && s[|s| - 1]
  }

  predicate PodNodeLost(p: Pod, now: int) {
    && p.deletion.Some? && p.node != "" && now - p.deletion.value >= NODE_LOST_GRACE
    && !LastReady(p.ready)
    && exists c <- p.containers :: !c.state.Terminated?
  }

  predicate HardFailure(reason: string) {
    reason in ["ImagePullBackOff", "ErrImagePull", "InvalidImageName", "CreateContainerConfigError",
               "CreateContainerError", "RunContainerError", "OOMKilled"]
  }

  function ClassifyEvent(e: Event, maxRestarts: nat, threshold: int): Severity {
    if e.kind == "Pod" then
      if e.reason in ["ImagePullBackOff", "ErrImagePull", "InvalidImageName", "OOMKilled"] then Critical
      else if e.reason == "BackOff" then (if maxRestarts >= threshold then Critical else Warning)
      else if e.reason in ["FailedScheduling", "Unhealthy", "NodeNotReady", "FailedMount", "FailedAttachVolume", "FailedMapVolume"]
      then Warning
      else Info
    else if e.kind == "PersistentVolumeClaim" then
      if e.reason == "FailedBinding" then Critical
      else if e.reason == "ProvisioningFailed" then Warning
      else Info
    else Info
  }

  // ---- what the events say, whatever their order

  predicate PullEvent(e: Event) {
    e.reason == "Pulling" || e.reason == "Pulled"
  }

  /** Among the pull events of its path none is later. */
  ghost predicate Latest(e: Event, events: seq<Event>) {
    PullEvent(e) && forall f <- events :: PullEvent(f) && f.path == e.path ==> Time(f) <= Time(e)
  }

  ghost predicate PullsNow(events: seq<Event>) {
    exists e <- events :: Latest(e, events) && e.reason == "Pulling"
  }

  ghost predicate HasCritical(events: seq<Event>, maxRestarts: nat, threshold: int) {
    exists e <- events :: ClassifyEvent(e, maxRestarts, threshold).Critical?
  }

  /** Some path has only Pulling events at its latest time. */
  ghost predicate CertainlyPulls(events: seq<Event>) {
    exists e <- events :: Latest(e, events) && OnlyPulling(e.path, events)
  }

  ghost predicate OnlyPulling(path: string, events: seq<Event>) {
    forall f <- events :: Latest(f, events) && f.path == path ==> f.reason == "Pulling"
  }

  // ---- the stage

  /** The first init container that has not completed decides. */
  function InitStage(s: seq<Container>): Option<Stage> {
    if s == [] then None
    else
      match s[0].state
      case Terminated(code) => if code == 0 then InitStage(s[1..]) else Some(Failed)
      case Waiting(reason) => Some(if HardFailure(reason) then Failed else Initializing)
      case _ => Some(Initializing)
  }

  /** The first container that waits for a reason decides. */
  function WaitingStage(s: seq<Container>): Option<Stage> {
    if s == [] then None
    else if s[0].state.Waiting? && s[0].state.reason != "" then
      Some(if HardFailure(s[0].state.reason) then Failed else Starting)
    else WaitingStage(s[1..])
  }

  function Snap(p: Pod, s: Stage, critical: bool): Snapshot {
    Snapshot(s, StageToStatus(s), TotalRestarts(p.init) + TotalRestarts(p.containers), critical)
  }

  /** What is reported of p when its events say what pulls and critical say. */
  function Analysis(p: Pod, pulls: bool, critical: bool, now: int): Snapshot {
    if p.deletion.Some? then
      Snap(p, if PodNodeLost(p, now) then NodeLost else if p.stopRequested then Stopping else Terminating, false)
    else if p.phase.PhaseSucceeded? then Snap(p, Stopped, false)
    else if p.phase.PhaseFailed? then Snap(p, Failed, critical)
    else if p.node == "" then Snap(p, Scheduling, false)
    else if pulls then Snap(p, Pulling, false)
    else if critical then Snap(p, Failed, true)
    else if InitStage(p.init).Some? then Snap(p, InitStage(p.init).value, InitStage(p.init).value.Failed?)
    else if p.containers == [] then Snap(p, Starting, false)
    else if WaitingStage(p.containers).Some? then
      Snap(p, WaitingStage(p.containers).value, WaitingStage(p.containers).value.Failed?)
    else if forall c <- p.containers :: c.ready then Snap(p, Running, false)
    else Snap(p, Starting, false)
  }

  // ---- the code

  /** What is recorded of each path once the events have been gone through: the first of its
      pull events of the latest time. */
  function Recorded(events: seq<Event>): map<string, Event> {
    if events == [] then map[]
    else
      var m, e := Recorded(events[..|events| - 1]), events[|events| - 1];
      if PullEvent(e) && (e.path !in m || Time(e) > Time(m[e.path])) then m[e.path := e] else m
  }

  predicate RecordsPulling(m: map<string, Event>) {
    exists p <- m :: m[p].reason == "Pulling"
  }

  /** The highest restart count of a container. */
  function MostRestarts(p: Pod): nat {
    MaxRestarts(p.containers + p.init)
  }

  /** What is reported of p when the events come in this order. */
  ghost function Reported(p: Pod, events: seq<Event>, threshold: int, now: int): Snapshot {
    Analysis(p, RecordsPulling(Recorded(events)), HasCritical(events, MostRestarts(p), threshold), now)
  }

  method AnalyzePod(pod: Option<Pod>, events: seq<Event>, threshold: int, now: int) returns (snap: Snapshot)
    ensures pod.None? ==> snap == Snapshot(Unknown, StatusUnknown, 0, false)
    ensures pod.Some? ==> snap == Reported(pod.value, events, threshold, now)
  {
    if pod.None? {
      return Snapshot(Unknown, StatusUnknown, 0, false);
    }
    var p := pod.value;
    var containerPull, critical := ReadEvents(events, MostRestarts(p), threshold);
    var activePulling := CountPulling(containerPull);
    snap := Decide(p, activePulling > 0, critical, now);
  }

  method ReadEvents(events: seq<Event>, maxRestarts: nat, threshold: int)
      returns (containerPull: map<string, Event>, critical: bool)
    ensures containerPull == Recorded(events)
    ensures critical <==> HasCritical(events, maxRestarts, threshold)
  {
    critical := false;
    containerPull := map[];
    for i := 0 to |events|
      invariant containerPull == Recorded(events[..i])
      invariant critical <==> HasCritical(events[..i], maxRestarts, threshold)
    {
      var e := events[i];
      assert events[..i + 1] == events[..i] + [e];
      assert events[..i + 1][..i] == events[..i];
      if ClassifyEvent(e, maxRestarts, threshold).Critical? && !critical {
        critical := true;
      }
      if e.reason == "Pulling" || e.reason == "Pulled" {
        if e.path !in containerPull || Time(e) > Time(containerPull[e.path]) {
          containerPull := containerPull[e.path := e];
        }
      }
    }
    assert events[..|events|] == events;
  }

  method CountPulling(m: map<string, Event>) returns (n: nat)
    ensures n > 0 <==> RecordsPulling(m)
  {
    n := 0;
    var todo := m.Keys;
    while todo != {}
      invariant todo <= m.Keys
      invariant n > 0 <==> exists p <- m.Keys - todo :: m[p].reason == "Pulling"
    {
      var p :| p in todo;
      todo := todo - {p};
      if m[p].reason == "Pulling" {
        n := n + 1;
      }
    }
    assert m.Keys - todo == m.Keys;
  }

  method Decide(p: Pod, pulls: bool, critical: bool, now: int) returns (snap: Snapshot)
    ensures snap == Analysis(p, pulls, critical, now)
  {
    if p.deletion.Some? {
      var stage := Terminating;
      if p.stopRequested {
        stage := Stopping;
      }
      if PodNodeLost(p, now) {
        stage := NodeLost;
      }
      return Snap(p, stage, false);
    }
    if p.phase == PhaseSucceeded {
      return Snap(p, Stopped, false);
    } else if p.phase == PhaseFailed {
      return Snap(p, Failed, critical);
    }
    if p.node == "" {
      return Snap(p, Scheduling, false);
    }
    if pulls {
      return Snap(p, Pulling, false);
    }
    if critical {
      return Snap(p, Failed, true);
    }
    for i := 0 to |p.init|
      invariant InitStage(p.init) == InitStage(p.init[i..])
    {
      var c := p.init[i];
      assert p.init[i..][0] == c && p.init[i..][1..] == p.init[i + 1..];
      if c.state.Terminated? && c.state.exitCode == 0 {
        continue;
      }
      if c.state.Waiting? {
        if HardFailure(c.state.reason) {
          return Snap(p, Failed, true);
        }
        return Snap(p, Initializing, false);
      }
      if c.state.Executing? {
        return Snap(p, Initializing, false);
      }
      if c.state.Terminated? {
        return Snap(p, Failed, true);
      }
      return Snap(p, Initializing, false);
    }
    if |p.containers| == 0 {
      return Snap(p, Starting, false);
    }
    for i := 0 to |p.containers|
      invariant WaitingStage(p.containers) == WaitingStage(p.containers[i..])
    {
      var c := p.containers[i];
      assert p.containers[i..][0] == c && p.containers[i..][1..] == p.containers[i + 1..];
      if c.state.Waiting? && c.state.reason != "" {
        if HardFailure(c.state.reason) {
          return Snap(p, Failed, true);
        }
        return Snap(p, Starting, false);
      }
    }
    var allReady := true;
    for i := 0 to |p.containers|
      invariant allReady && forall c <- p.containers[..i] :: c.ready
    {
      if !p.containers[i].ready {
        allReady := false;
        break;
      }
    }
    assert p.containers[..|p.containers|] == p.containers;
    if allReady {
      return Snap(p, Running, false);
    }
    snap := Snap(p, Starting, false);
  }

  // ---- order

  ghost predicate SameEvents(s: seq<Event>, t: seq<Event>) {
    forall e :: e in s <==> e in t
  }

  lemma {:induction false} RecordedIsLatest(events: seq<Event>)
    ensures forall p <- Recorded(events) :: Recorded(events)[p].path == p && Recorded(events)[p] in events
                                           && Latest(Recorded(events)[p], events)
    ensures forall e <- events :: PullEvent(e) ==> e.path in Recorded(events)
  {
    if events != [] {
      var init, e := events[..|events| - 1], events[|events| - 1];
      RecordedIsLatest(init);
      assert events == init + [e];
    }
  }

  /** What is recorded of a path is later than any of its pull events it comes after. */
  lemma {:induction false} RecordedIsFirst(events: seq<Event>, k: nat)
    requires k < |events| && PullEvent(events[k])
    ensures events[k].path in Recorded(events)
    ensures exists i :: 0 <= i < |events| && events[i] == Recorded(events)[events[k].path]
                        && Time(events[i]) >= Time(events[k]) && (i <= k || Time(events[i]) > Time(events[k]))
  {
    var n := |events| - 1;
    if k < n {
      var init := events[..n];
      assert init[k] == events[k];
      RecordedIsFirst(init, k);
      var i :| 0 <= i < n && init[i] == Recorded(init)[events[k].path]
               && Time(init[i]) >= Time(events[k]) && (i <= k || Time(init[i]) > Time(events[k]));
      assert events[i] == init[i];
      assert events[n] == Recorded(events)[events[k].path] || events[i] == Recorded(events)[events[k].path];
    } else {
      RecordedIsLatest(events);
      var i :| 0 <= i < |events| && events[i] == Recorded(events)[events[k].path];
    }
  }

  /** In every order the record says Pulling of a path that certainly pulls, and of none
      that does not pull at all. */
  lemma RecordedBetween(events: seq<Event>)
    ensures CertainlyPulls(events) ==> RecordsPulling(Recorded(events))
    ensures RecordsPulling(Recorded(events)) ==> PullsNow(events)
  {
    RecordedIsLatest(events);
    var m := Recorded(events);
    if e :| e in events && Latest(e, events) && OnlyPulling(e.path, events) {
      assert e.path in m && m[e.path].reason == "Pulling";
    }
  }

  function PullingFirst(events: seq<Event>, first: bool): seq<Event> {
    Where(events, first) + Where(events, !first)
  }

  /** The Pulling events, or the others. */
  function Where(events: seq<Event>, pulling: bool): seq<Event> {
    Filter(events, (e: Event) => (e.reason == "Pulling") == pulling)
  }

  lemma {:induction false} WhereSplits(events: seq<Event>)
    ensures multiset(events) == multiset(Where(events, true)) + multiset(Where(events, false))
  {
    if events != [] {
      WhereSplits(events[1..]);
      assert events == [events[0]] + events[1..];
    }
  }

  lemma PermutedSame(s: seq<Event>, t: seq<Event>)
    requires multiset(s) == multiset(t)
    ensures SameEvents(s, t)
  {
    assert forall e :: e in s <==> e in multiset(s);
    assert forall e :: e in t <==> e in multiset(t);
  }

  lemma SamePulls(s: seq<Event>, t: seq<Event>)
    requires SameEvents(s, t)
    ensures PullsNow(s) <==> PullsNow(t)
    ensures CertainlyPulls(s) <==> CertainlyPulls(t)
  {
    assert forall e :: Latest(e, s) <==> Latest(e, t);
    assert forall path :: OnlyPulling(path, s) <==> OnlyPulling(path, t);
  }

  /** Two ways to reorder the events: with the Pulling events first the record says Pulling
      whenever it can, with the others first only when it must. */
  lemma ExtremeOrders(s: seq<Event>)
    ensures forall first :: multiset(PullingFirst(s, first)) == multiset(s)
    ensures RecordsPulling(Recorded(PullingFirst(s, true))) <==> PullsNow(s)
    ensures RecordsPulling(Recorded(PullingFirst(s, false))) <==> CertainlyPulls(s)
  {
    WhereSplits(s);
    PermutedSame(s, PullingFirst(s, true));
    PermutedSame(s, PullingFirst(s, false));
    SamePulls(s, PullingFirst(s, true));
    SamePulls(s, PullingFirst(s, false));
    PullingComesFirst(s);
    PullingComesLast(s);
  }

  lemma RecordedFromFront(a: seq<Event>, b: seq<Event>, e: Event)
    requires e in a && Latest(e, a + b)
    ensures e.path in Recorded(a + b) && Recorded(a + b)[e.path] in a
  {
    var t := a + b;
    var k :| 0 <= k < |a| && a[k] == e;
    assert t[k] == e;
    RecordedIsFirst(t, k);
    RecordedIsLatest(t);
    var i :| 0 <= i < |t| && t[i] == Recorded(t)[e.path] && (i <= k || Time(t[i]) > Time(e));
    assert t[i] == a[i];
  }

  lemma PullingComesFirst(s: seq<Event>)
    ensures RecordsPulling(Recorded(PullingFirst(s, true))) <==> PullsNow(PullingFirst(s, true))
  {
    var t := PullingFirst(s, true);
    RecordedBetween(t);
    if e :| e in t && Latest(e, t) && e.reason == "Pulling" {
      RecordedFromFront(Where(s, true), Where(s, false), e);
    }
  }

  lemma PullingComesLast(s: seq<Event>)
    ensures RecordsPulling(Recorded(PullingFirst(s, false))) <==> CertainlyPulls(PullingFirst(s, false))
  {
    var t := PullingFirst(s, false);
    RecordedBetween(t);
    RecordedIsLatest(t);
    if p :| p in Recorded(t) && Recorded(t)[p].reason == "Pulling" {
      forall f | f in t && Latest(f, t) && f.path == p
        ensures f.reason == "Pulling"
      {
        if f in Where(s, false) {
          RecordedFromFront(Where(s, false), Where(s, true), f);
        }
      }
      assert OnlyPulling(p, t);
    }
  }

  /** What is recorded says what pulls in every order of the events exactly when whatever
      pulls, pulls for certain: a tie between Pulling and Pulled on one path does no harm
      when another path has no tie. */
  lemma RecordsWhatPulls(s: seq<Event>)
    ensures (forall t :: SameEvents(s, t) ==> (RecordsPulling(Recorded(t)) <==> PullsNow(s)))
       <==> (PullsNow(s) ==> CertainlyPulls(s))
  {
    ExtremeOrders(s);
    PermutedSame(s, PullingFirst(s, false));
    forall t | SameEvents(s, t) && (PullsNow(s) ==> CertainlyPulls(s))
      ensures RecordsPulling(Recorded(t)) <==> PullsNow(s)
    {
      SamePulls(s, t);
      RecordedBetween(t);
    }
  }

  /** Placed, neither ended nor being deleted: what pulls matters to the stage. */
  predicate PullsMatter(p: Pod) {
    p.deletion.None? && !p.phase.PhaseSucceeded? && !p.phase.PhaseFailed? && p.node != ""
  }

  lemma PullsShow(p: Pod, critical: bool, now: int)
    ensures Analysis(p, true, critical, now) == Analysis(p, false, critical, now) <==> !PullsMatter(p)
  {
    InitStages(p.init);
    WaitingStages(p.containers);
  }

  /** The same events in any order, and any number of times, give the same stage, status and
      restart count, and agree on whether there is a critical error, exactly when pulls do
      not matter to the pod or whatever pulls, pulls for certain. */
  lemma AnyOrderSameSnapshot(p: Pod, s: seq<Event>, threshold: int, now: int)
    ensures (forall t :: SameEvents(s, t) ==> Reported(p, t, threshold, now) == Reported(p, s, threshold, now))
       <==> (PullsMatter(p) && PullsNow(s) ==> CertainlyPulls(s))
  {
    ExtremeOrders(s);
    PermutedSame(s, PullingFirst(s, true));
    PermutedSame(s, PullingFirst(s, false));
    PullsShow(p, HasCritical(s, MostRestarts(p), threshold), now);
    forall t | SameEvents(s, t)
      ensures HasCritical(t, MostRestarts(p), threshold) == HasCritical(s, MostRestarts(p), threshold)
    {
    }
    forall t | SameEvents(s, t) && (PullsMatter(p) && PullsNow(s) ==> CertainlyPulls(s))
      ensures Reported(p, t, threshold, now) == Reported(p, s, threshold, now)
    {
      SamePulls(s, t);
      RecordedBetween(s);
      RecordedBetween(t);
    }
  }

  /** With a tie the first event counts, so the order does make a difference. */
  lemma TieDependsOnOrder(p: Pod, path: string, time: int, now: int)
    requires p.deletion.None? && !p.phase.PhaseSucceeded? && !p.phase.PhaseFailed? && p.node != ""
    requires InitStage(p.init).None? && p.containers != [] && forall c <- p.containers :: c.ready && !c.state.Waiting?
    ensures var pulling := Event("1", "Pod", "Pulling", path, Some(time), time, 1);
            var pulled := Event("2", "Pod", "Pulled", path, Some(time), time, 1);
            && Analysis(p, RecordsPulling(Recorded([pulling, pulled])), false, now).stage == Pulling
            && Analysis(p, RecordsPulling(Recorded([pulled, pulling])), false, now).stage == Running
  {
    var pulling := Event("1", "Pod", "Pulling", path, Some(time), time, 1);
    var pulled := Event("2", "Pod", "Pulled", path, Some(time), time, 1);
    assert pulling.reason[4] != pulled.reason[4];
    assert [pulling, pulled][..1] == [pulling] && [pulled, pulling][..1] == [pulled];
    assert Recorded([pulling]) == map[path := pulling] && Recorded([pulled]) == map[path := pulled] by {
      assert [pulling][..0] == [] && [pulled][..0] == [];
    }
    assert Recorded([pulling, pulled]) == map[path := pulling];
    assert Recorded([pulled, pulling]) == map[path := pulled];
    NoWaitingStage(p.containers);
  }

  // ---- what the stages mean

  lemma {:induction false} NoWaitingStage(s: seq<Container>)
    ensures WaitingStage(s).None? <==> forall c <- s :: c.state.Waiting? ==> c.state.reason == ""
  {
    if s != [] {
      NoWaitingStage(s[1..]);
      assert s == [s[0]] + s[1..];
    }
  }

  lemma {:induction false} NoInitStage(s: seq<Container>)
    ensures InitStage(s).None? <==> forall c <- s :: c.state == Terminated(0)
  {
    if s != [] {
      NoInitStage(s[1..]);
      assert s == [s[0]] + s[1..];
      assert s[0] in s;
    }
  }

  /** A workspace runs exactly when its pod is placed, neither ended nor being deleted, pulls
      no image and has no critical event, every init container has completed, and every
      container is ready and waits for nothing. */
  lemma RunningIff(p: Pod, pulls: bool, critical: bool, now: int)
    ensures Analysis(p, pulls, critical, now).stage == Running <==>
            && p.deletion.None? && !p.phase.PhaseSucceeded? && !p.phase.PhaseFailed? && p.node != ""
            && !pulls && !critical
            && (forall c <- p.init :: c.state == Terminated(0))
            && p.containers != []
            && forall c <- p.containers :: c.ready && (c.state.Waiting? ==> c.state.reason == "")
  {
    NoInitStage(p.init);
    NoWaitingStage(p.containers);
    InitStages(p.init);
    WaitingStages(p.containers);
  }

  lemma {:induction false} InitStages(s: seq<Container>)
    ensures InitStage(s).Some? ==> InitStage(s).value.Failed? || InitStage(s).value.Initializing?
  {
    if s != [] {
      InitStages(s[1..]);
    }
  }

  lemma {:induction false} WaitingStages(s: seq<Container>)
    ensures WaitingStage(s).Some? ==> WaitingStage(s).value.Failed? || WaitingStage(s).value.Starting?
  {
    if s != [] {
      WaitingStages(s[1..]);
    }
  }

  /** A critical error is reported of failed workspaces alone, and of those that have not
      run to an end always. */
  lemma CriticalMeansFailed(p: Pod, pulls: bool, critical: bool, now: int)
    ensures var snap := Analysis(p, pulls, critical, now);
            && (snap.critical ==> snap.stage == Failed)
            && (snap.stage == Failed && !p.phase.PhaseFailed? ==> snap.critical)
  {
    InitStages(p.init);
    WaitingStages(p.containers);
  }

  // ---- every stage, in terms of the pod and the events

  /** The first init container that has not completed. */
  predicate FirstUndone(s: seq<Container>, i: nat) {
    i < |s| && s[i].state != Terminated(0) && forall j :: 0 <= j < i ==> s[j].state == Terminated(0)
  }

  /** It has failed, or waits for what will not come. */
  predicate InitFails(c: Container) {
    (c.state.Terminated? && c.state.exitCode != 0) || (c.state.Waiting? && HardFailure(c.state.reason))
  }

  predicate WaitsFor(c: Container) {
    c.state.Waiting? && c.state.reason != ""
  }

  /** The first container that waits for a reason. */
  predicate FirstWaiting(s: seq<Container>, i: nat) {
    i < |s| && WaitsFor(s[i]) && forall j :: 0 <= j < i ==> !WaitsFor(s[j])
  }

  lemma {:induction false} InitDecides(s: seq<Container>) returns (i: nat)
    ensures InitStage(s).None? ==> forall j :: !FirstUndone(s, j)
    ensures InitStage(s).Some? ==> FirstUndone(s, i) && InitStage(s).value == if InitFails(s[i]) then Failed else Initializing
  {
    i := 0;
    NoInitStage(s);
    if s != [] && s[0].state == Terminated(0) {
      var k := InitDecides(s[1..]);
      i := k + 1;
      if InitStage(s[1..]).Some? {
        assert s[i] == s[1..][k];
        forall j | 0 <= j < i
          ensures s[j].state == Terminated(0)
        {
          assert j > 0 ==> s[j] == s[1..][j - 1];
        }
      }
    }
  }

  lemma {:induction false} WaitingDecides(s: seq<Container>) returns (i: nat)
    ensures WaitingStage(s).None? ==> forall j :: !FirstWaiting(s, j)
    ensures WaitingStage(s).Some? ==>
              FirstWaiting(s, i) && WaitingStage(s).value == if HardFailure(s[i].state.reason) then Failed else Starting
  {
    i := 0;
    NoWaitingStage(s);
    if s != [] && !WaitsFor(s[0]) {
      var k := WaitingDecides(s[1..]);
      i := k + 1;
      if WaitingStage(s[1..]).Some? {
        assert s[i] == s[1..][k];
        forall j | 0 <= j < i
          ensures !WaitsFor(s[j])
        {
          assert j > 0 ==> s[j] == s[1..][j - 1];
        }
      }
    }
  }

  lemma OneFirst(s: seq<Container>, i: nat, j: nat)
    ensures FirstUndone(s, i) && FirstUndone(s, j) ==> i == j
    ensures FirstWaiting(s, i) && FirstWaiting(s, j) ==> i == j
  {
  }

  /** Placed, and neither pulls nor critical events decide. */
  predicate ContainersDecide(p: Pod, pulls: bool, critical: bool) {
    PullsMatter(p) && !pulls && !critical
  }

  predicate InitDone(p: Pod) {
    forall c <- p.init :: c.state == Terminated(0)
  }

  /** A pod being deleted is on a lost node, else stopping if that was asked for, else
      terminating. One that is not is stopped or failed when it has ended so, is scheduled
      until it has a node, and pulls when something pulls. */
  lemma EarlyStages(p: Pod, pulls: bool, critical: bool, now: int)
    ensures var stage := Analysis(p, pulls, critical, now).stage;
            var lost := p.deletion.Some? && p.node != "" && now - p.deletion.value >= 15
                        && (p.ready == [] || !p.ready[|p.ready| - 1]) && exists c <- p.containers :: !c.state.Terminated?;
            && (stage == NodeLost <==> lost)
            && (stage == Stopping <==> p.deletion.Some? && !lost && p.stopRequested)
            && (stage == Terminating <==> p.deletion.Some? && !lost && !p.stopRequested)
            && (stage == Stopped <==> p.deletion.None? && p.phase == PhaseSucceeded)
            && (stage == Scheduling <==>
                  p.deletion.None? && p.phase != PhaseSucceeded && p.phase != PhaseFailed && p.node == "")
            && (stage == Pulling <==> PullsMatter(p) && pulls)
            && stage != Unknown
  {
    InitStages(p.init);
    WaitingStages(p.containers);
  }

  /** Otherwise a critical event is a failure, else the first init container that has not
      completed decides, else the first container that waits for a reason, else whether all
      containers are ready. */
  lemma LateStages(p: Pod, pulls: bool, critical: bool, now: int)
    ensures var stage := Analysis(p, pulls, critical, now).stage;
            var decide := ContainersDecide(p, pulls, critical);
            && (stage == Initializing <==>
                  decide && exists i: nat :: FirstUndone(p.init, i) && !InitFails(p.init[i]))
            && (stage == Starting <==>
                  decide && InitDone(p)
                  && (if exists i: nat :: FirstWaiting(p.containers, i)
                      then exists i: nat :: FirstWaiting(p.containers, i) && !HardFailure(p.containers[i].state.reason)
                      else p.containers == [] || exists c <- p.containers :: !c.ready))
            && (stage == Failed <==>
                  p.deletion.None? &&
                  (|| p.phase == PhaseFailed
                   || (PullsMatter(p) && !pulls && critical)
                   || (decide && exists i: nat :: FirstUndone(p.init, i) && InitFails(p.init[i]))
                   || (decide && InitDone(p)
                       && exists i: nat :: FirstWaiting(p.containers, i) && HardFailure(p.containers[i].state.reason))))
  {
    var i := InitDecides(p.init);
    var w := WaitingDecides(p.containers);
    NoInitStage(p.init);
    forall j: nat
      ensures FirstUndone(p.init, i) && FirstUndone(p.init, j) ==> i == j
      ensures FirstWaiting(p.containers, w) && FirstWaiting(p.containers, j) ==> w == j
    {
      OneFirst(p.init, i, j);
      OneFirst(p.containers, w, j);
    }
  }

  /** The status is a coarser view of the stage: four stages on the way up are provisioning
      or pulling, every other has a status of its own. */
  lemma StatusGroups(p: Pod, pulls: bool, critical: bool, now: int)
    ensures var snap := Analysis(p, pulls, critical, now);
            && (snap.status == StatusProvisioning <==> snap.stage in {Scheduling, Initializing, Starting})
            && (snap.status == StatusPulling <==> snap.stage == Pulling)
            && (snap.status == StatusRunning <==> snap.stage == Running)
            && (snap.status == StatusStopping <==> snap.stage == Stopping)
            && (snap.status == StatusTerminating <==> snap.stage == Terminating)
            && (snap.status == StatusNodeLost <==> snap.stage == NodeLost)
            && (snap.status == StatusStopped <==> snap.stage == Stopped)
            && (snap.status == StatusFailing <==> snap.stage == Failed)
            && snap.status != StatusUnknown
  {
    EarlyStages(p, pulls, critical, now);
    InitStages(p.init);
    WaitingStages(p.containers);
  }

  /** The critical errors among events: what cannot be pulled or runs out of memory, backing
      off once some container has been restarted often enough, a volume that cannot be bound. */
  lemma CriticalIff(events: seq<Event>, maxRestarts: nat, threshold: int)
    ensures HasCritical(events, maxRestarts, threshold) <==>
            exists e <- events ::
              || (e.kind == "Pod" && (|| e.reason == "ImagePullBackOff" || e.reason == "ErrImagePull"
                                      || e.reason == "InvalidImageName" || e.reason == "OOMKilled"
                                      || (e.reason == "BackOff" && maxRestarts >= threshold)))
              || (e.kind == "PersistentVolumeClaim" && e.reason == "FailedBinding")
  {
    assert "PersistentVolumeClaim"[1] != "Pod"[1];
    assert "BackOff"[0] == 'B' && "ImagePullBackOff"[0] == 'I' && "ErrImagePull"[0] == 'E'
           && "InvalidImageName"[0] == 'I' && "OOMKilled"[0] == 'O';
    forall e | e in events
      ensures ClassifyEvent(e, maxRestarts, threshold).Critical? <==>
              || (e.kind == "Pod" && (|| e.reason == "ImagePullBackOff" || e.reason == "ErrImagePull"
                                      || e.reason == "InvalidImageName" || e.reason == "OOMKilled"
                                      || (e.reason == "BackOff" && maxRestarts >= threshold)))
              || (e.kind == "PersistentVolumeClaim" && e.reason == "FailedBinding")
    {
    }
  }

  lemma {:induction false} RestartsAdd(s: seq<Container>, t: seq<Container>)
    ensures TotalRestarts(s + t) == TotalRestarts(s) + TotalRestarts(t)
  {
    if s == [] {
      assert s + t == t;
    } else {
      RestartsAdd(s[1..], t);
      assert (s + t)[1..] == s[1..] + t;
    }
  }

  lemma TakenOut(t: seq<Container>, i: nat)
    requires i < |t|
    ensures var rest := t[..i] + t[i + 1..];
            TotalRestarts(t) == TotalRestarts(rest) + t[i].restarts && multiset(t) == multiset(rest) + multiset{t[i]}
  {
    var c := [t[i]];
    assert t == t[..i] + c + t[i + 1..];
    RestartsAdd(t[..i], t[i + 1..]);
    RestartsAdd(t[..i] + c, t[i + 1..]);
    RestartsAdd(t[..i], c);
    assert c[1..] == [];
  }

  lemma {:induction false} RestartsPermuted(s: seq<Container>, t: seq<Container>)
    requires multiset(s) == multiset(t)
    ensures TotalRestarts(s) == TotalRestarts(t)
    decreases |s|
  {
    if s != [] {
      assert s[0] in multiset(t);
      var i :| 0 <= i < |t| && t[i] == s[0];
      var rest := t[..i] + t[i + 1..];
      TakenOut(t, i);
      assert s == [s[0]] + s[1..];
      assert multiset(s[1..]) == multiset(s) - multiset{s[0]} == multiset(rest);
      RestartsPermuted(s[1..], rest);
    } else {
      assert |multiset(t)| == |t|;
    }
  }

  lemma TotalOfMore(s: seq<Container>, t: seq<Container>, c: Container)
    requires multiset(t) == multiset(s) + multiset{c}
    ensures TotalRestarts(t) == TotalRestarts(s) + c.restarts
  {
    RestartsPermuted(t, s + [c]);
    RestartsAdd(s, [c]);
    assert [c][1..] == [];
  }

  lemma SnapshotRestarts(p: Pod, pulls: bool, critical: bool, now: int)
    ensures Analysis(p, pulls, critical, now).restarts == TotalRestarts(p.init + p.containers)
  {
    RestartsAdd(p.init, p.containers);
  }

  /** Without containers no restarts are reported. A container c more, wherever it stands,
      adds its own. Their order, and which of them are init containers, makes no difference. */
  lemma RestartsAreTheSum(p: Pod, q: Pod, c: Container, pulls: bool, critical: bool, now: int)
    ensures var before, after := Analysis(p, pulls, critical, now).restarts, Analysis(q, pulls, critical, now).restarts;
            && (p.init + p.containers == [] ==> before == 0)
            && (multiset(q.init + q.containers) == multiset(p.init + p.containers) + multiset{c} ==> after == before + c.restarts)
            && (multiset(q.init + q.containers) == multiset(p.init + p.containers) ==> after == before)
  {
    SnapshotRestarts(p, pulls, critical, now);
    SnapshotRestarts(q, pulls, critical, now);
    var s, t := p.init + p.containers, q.init + q.containers;
    if multiset(t) == multiset(s) + multiset{c} {
      TotalOfMore(s, t, c);
    }
    if multiset(t) == multiset(s) {
      RestartsPermuted(t, s);
    }
  }

  // ---- watching

  /** seen is the time at which the message is handled. */
  datatype Message = PodSeen(pod: Pod, seen: int) | EventSeen(event: Event, seen: int)

  function LastPod(p: Pod, messages: seq<Message>): Pod {
    if messages == [] then p
    else
      var m := messages[|messages| - 1];
      if m.PodSeen? then m.pod else LastPod(p, messages[..|messages| - 1])
  }

  /** The latest event of each uid. */
  function LastEvents(known: map<string, Event>, messages: seq<Message>): map<string, Event> {
    if messages == [] then known
    else
      var before, m := LastEvents(known, messages[..|messages| - 1]), messages[|messages| - 1];
      if m.EventSeen? then before[m.event.uid := m.event] else before
  }

  lemma LastsNext(p: Pod, known: map<string, Event>, messages: seq<Message>, m: Message)
    ensures LastPod(p, messages + [m]) == if m.PodSeen? then m.pod else LastPod(p, messages)
    ensures LastEvents(known, messages + [m])
            == if m.EventSeen? then LastEvents(known, messages)[m.event.uid := m.event] else LastEvents(known, messages)
  {
    assert (messages + [m])[..|messages|] == messages;
  }

  ghost predicate Lists(s: seq<Event>, known: map<string, Event>) {
    forall e :: e in s <==> exists uid <- known :: known[uid] == e
  }

  /** The events known, in any order. */
  method EventSlice(known: map<string, Event>) returns (s: seq<Event>)
    ensures Lists(s, known) && |s| == |known|
  {
    s := [];
    var todo := known.Keys;
    while todo != {}
      invariant todo <= known.Keys
      invariant forall e :: e in s <==> exists uid <- known.Keys - todo :: known[uid] == e
      invariant |s| + |todo| == |known|
      decreases |todo|
    {
      var uid :| uid in todo;
      todo := todo - {uid};
      s := s + [known[uid]];
    }
  }

  predicate Final(snap: Snapshot) {
    snap.critical || snap.stage.Running? || snap.stage.Stopped? || snap.stage.Failed?
  }

  /** snap is what is reported of p and known at that time, in whatever order the events are
      listed. */
  ghost predicate Reports(snap: Snapshot, p: Pod, known: map<string, Event>, threshold: int, now: int) {
    exists s :: Lists(s, known) && snap == Reported(p, s, threshold, now)
  }

  /** s is one way to list the known events. Whatever way they are listed there is one
      report, exactly when pulls do not matter or whatever pulls, pulls for certain. */
  lemma ReportIsDetermined(p: Pod, known: map<string, Event>, s: seq<Event>, threshold: int, now: int)
    requires Lists(s, known)
    ensures (forall snap, snap' :: Reports(snap, p, known, threshold, now) && Reports(snap', p, known, threshold, now)
                                   ==> snap == snap')
       <==> (PullsMatter(p) && PullsNow(s) ==> CertainlyPulls(s))
  {
    AnyOrderSameSnapshot(p, s, threshold, now);
    forall t
      ensures Lists(t, known) <==> SameEvents(s, t)
    {
      if SameEvents(s, t) {
        assert forall e :: e in t <==> e in s;
      }
    }
    var report := Reported(p, s, threshold, now);
    assert Reports(report, p, known, threshold, now);
    forall t | SameEvents(s, t)
      ensures Reports(Reported(p, t, threshold, now), p, known, threshold, now)
    {
    }
  }

  /** emitted holds what was announced, and nothing was announced twice. */
  ghost predicate Announces(emitted: set<(string, nat)>, announced: seq<Event>) {
    && (forall u, n :: (u, n) in emitted <==> exists e <- announced :: e.uid == u && e.count == n)
    && forall i, j :: 0 <= i < j < |announced| ==> (announced[i].uid, announced[i].count) != (announced[j].uid, announced[j].count)
  }

  /** Of the messages handled, every count of every event was announced, and nothing else. */
  ghost predicate Announced(emitted: set<(string, nat)>, announced: seq<Event>, messages: seq<Message>) {
    && Announces(emitted, announced)
    && (forall m <- messages :: m.EventSeen? ==> (m.event.uid, m.event.count) in emitted)
    && forall e <- announced :: Came(e, messages)
  }

  ghost predicate Came(e: Event, messages: seq<Message>) {
    exists m <- messages :: m.EventSeen? && m.event == e
  }

  /** Every count of every event that came is announced once, and nothing else is. */
  ghost predicate OncePerCount(announced: seq<Event>, messages: seq<Message>) {
    && (forall i, j :: 0 <= i < j < |announced| ==> !SameCount(announced[i], announced[j]))
    && (forall m <- messages :: m.EventSeen? ==> exists e <- announced :: SameCount(e, m.event))
    && forall e <- announced :: Came(e, messages)
  }

  predicate SameCount(e: Event, f: Event) {
    e.uid == f.uid && e.count == f.count
  }

  lemma AnnouncedOnce(emitted: set<(string, nat)>, announced: seq<Event>, messages: seq<Message>)
    requires Announced(emitted, announced, messages)
    ensures OncePerCount(announced, messages)
  {
    forall m | m in messages && m.EventSeen?
      ensures exists e <- announced :: SameCount(e, m.event)
    {
      assert (m.event.uid, m.event.count) in emitted;
      var e :| e in announced && e.uid == m.event.uid && e.count == m.event.count;
      assert SameCount(e, m.event);
    }
  }

  method Announce(emitted: set<(string, nat)>, announced: seq<Event>, ghost before: seq<Message>, m: Message)
      returns (emitted': set<(string, nat)>, announced': seq<Event>)
    requires Announced(emitted, announced, before)
    ensures Announced(emitted', announced', before + [m])
  {
    emitted', announced' := emitted, announced;
    if m.EventSeen? && (m.event.uid, m.event.count) !in emitted {
      emitted' := emitted + {(m.event.uid, m.event.count)};
      announced' := announced + [m.event];
      assert m in before + [m];
    }
    forall e | e in announced
      ensures Came(e, before + [m])
    {
      var c :| c in before && c.EventSeen? && c.event == e;
      assert c in before + [m];
    }
  }

  /** What was reported once i messages were handled was not final. */
  ghost predicate NotFinalYet(initialPod: Pod, initialEvents: map<string, Event>, messages: seq<Message>, i: nat, threshold: int) {
    && 0 < i <= |messages|
    && exists snap :: !Final(snap) &&
         Reports(snap, LastPod(initialPod, messages[..i]), LastEvents(initialEvents, messages[..i]),
                 threshold, messages[i - 1].seen)
  }

  /** What the loop knows once it has handled these messages. */
  ghost predicate Tracks(initialPod: Pod, initialEvents: map<string, Event>, messages: seq<Message>,
                         pod: Pod, known: map<string, Event>, emitted: set<(string, nat)>, announced: seq<Event>) {
    && pod == LastPod(initialPod, messages) && known == LastEvents(initialEvents, messages)
    && Announced(emitted, announced, messages) && OncePerCount(announced, messages)
  }

  /** One turn of the loop. */
  method Handle(ghost initialPod: Pod, ghost initialEvents: map<string, Event>, ghost before: seq<Message>, m: Message,
                pod: Pod, known: map<string, Event>, emitted: set<(string, nat)>, announced: seq<Event>, threshold: int)
      returns (pod': Pod, known': map<string, Event>, emitted': set<(string, nat)>, announced': seq<Event>, snap: Snapshot)
    requires Tracks(initialPod, initialEvents, before, pod, known, emitted, announced)
    ensures Tracks(initialPod, initialEvents, before + [m], pod', known', emitted', announced')
    ensures Reports(snap, pod', known', threshold, m.seen)
  {
    LastsNext(initialPod, initialEvents, before, m);
    pod', known' := pod, known;
    if m.PodSeen? {
      pod' := m.pod;
    } else {
      known' := known[m.event.uid := m.event];
    }
    emitted', announced' := Announce(emitted, announced, before, m);
    AnnouncedOnce(emitted', announced', before + [m]);
    snap := Report(pod', known', threshold, m.seen);
  }

  method Report(pod: Pod, known: map<string, Event>, threshold: int, now: int) returns (snap: Snapshot)
    ensures Reports(snap, pod, known, threshold, now)
  {
    var events := EventSlice(known);
    snap := AnalyzePod(Some(pod), events, threshold, now);
  }

  /** None of the reports made after the first handled messages was final. */
  ghost predicate NoneFinal(initialPod: Pod, initialEvents: map<string, Event>, messages: seq<Message>, handled: nat, threshold: int) {
    forall i :: 0 < i <= handled ==> NotFinalYet(initialPod, initialEvents, messages, i, threshold)
  }

  lemma NoneFinalNext(initialPod: Pod, initialEvents: map<string, Event>, messages: seq<Message>, handled: nat, threshold: int, snap: Snapshot)
    requires 0 < handled <= |messages| && NoneFinal(initialPod, initialEvents, messages, handled - 1, threshold)
    requires Reports(snap, LastPod(initialPod, messages[..handled]), LastEvents(initialEvents, messages[..handled]),
                     threshold, messages[handled - 1].seen) && !Final(snap)
    ensures NoneFinal(initialPod, initialEvents, messages, handled, threshold)
  {
  }

  /** Handles messages up to one after which the state is final, and it is the first such.
      What it returns depends on the last pod and the latest event of each uid alone.
      announced lists the events passed on to the client: each count of each event once, and
      nothing but events that came. */
  method WatchLoop(initialPod: Pod, initialEvents: map<string, Event>, messages: seq<Message>, threshold: int)
      returns (r: Option<Snapshot>, handled: nat, announced: seq<Event>)
    ensures handled <= |messages|
    ensures r.None? ==> handled == |messages| && NoneFinal(initialPod, initialEvents, messages, handled, threshold)
    ensures r.Some? ==>
      && handled > 0 && Final(r.value)
      && NoneFinal(initialPod, initialEvents, messages, handled - 1, threshold)
      && Reports(r.value, LastPod(initialPod, messages[..handled]), LastEvents(initialEvents, messages[..handled]),
                 threshold, messages[handled - 1].seen)
    ensures OncePerCount(announced, messages[..handled])
  {
    var currentPod, knownEvents, emitted := initialPod, initialEvents, {};
    announced := [];
    for i := 0 to |messages|
      invariant Tracks(initialPod, initialEvents, messages[..i], currentPod, knownEvents, emitted, announced)
      invariant NoneFinal(initialPod, initialEvents, messages, i, threshold)
    {
      assert messages[..i + 1] == messages[..i] + [messages[i]];
      var snap;
      currentPod, knownEvents, emitted, announced, snap :=
        Handle(initialPod, initialEvents, messages[..i], messages[i], currentPod, knownEvents, emitted, announced, threshold);
      if Final(snap) {
        return Some(snap), i + 1, announced;
      }
      NoneFinalNext(initialPod, initialEvents, messages, i + 1, threshold, snap);
    }
    assert messages[..|messages|] == messages;
    return None, |messages|, announced;
  }
}
