/** Injecting a workspace into a workload's pod template and taking it out again
    (internal/helm/inject.go). The recorded state is kept as a value: writing it as JSON and
    reading it back is taken to lose nothing. */
module Injection {
  import opened Prelude

  datatype Mount = Mount(volume: string, path: string)
  datatype Container = Container(name: string, mounts: seq<Mount>, image: string)
  datatype Source = Secret(secret: string) | Claim(claim: string) | OtherSource(id: string)
  datatype Volume = Volume(name: string, source: Source)

  datatype Template = Template(
    containers: seq<Container>, initContainers: seq<Container>, volumes: seq<Volume>,
    labels: map<string, string>, annotations: map<string, string>, sharePID: Option<bool>)

  datatype State = State(
    canonicalId: string, containers: seq<string>, initContainers: seq<string>, volumes: seq<string>, sharePID: bool)

  datatype Workload = Workload(kind: string, name: string, template: Template, state: Option<State>)

  datatype Spec = Spec(
    containers: seq<Container>, initContainers: seq<Container>, volumes: seq<Volume>,
    labels: map<string, string>, annotations: map<string, string>)

  datatype InjectError =
    | AlreadyInjected(canonicalId: string)
    | NotInjected(found: string)
    | UpdateFailed

  const INJECTED := "k8shell.io/injected"
  const WORKLOAD_KIND := "k8shell.io/workload-kind"
  const WORKLOAD_NAME := "k8shell.io/workload-name"
  const USERNAME := "k8shell.io/username"
  const ORGANIZATION := "k8shell.io/organization"
  const BLUEPRINT := "k8shell.io/blueprint"
  const BLUEPRINT_REVISION := "k8shell.io/blueprint-revision"
  const CANONICAL_ID := "k8shell.io/canonical-id"
  const JOB_ID := "k8shell.io/job-id"
  const USER_STR := "k8shell.io/userstr"

  /** The labels a spec takes over from the workspace pod. */
  const ALLOWED_LABELS: set<string> := {USERNAME, ORGANIZATION, BLUEPRINT, BLUEPRINT_REVISION}

  const INJECTED_LABELS: set<string> :=
    {INJECTED, WORKLOAD_KIND, WORKLOAD_NAME, CANONICAL_ID, JOB_ID, USERNAME, ORGANIZATION, BLUEPRINT, BLUEPRINT_REVISION}

  const INJECTED_ANNOTATIONS: set<string> := {USER_STR}

  // ---- what is injected and what is left

  function ContainerNames(s: seq<Container>): (r: seq<string>)
    ensures |r| == |s| && forall i :: 0 <= i < |s| ==> r[i] == s[i].name
  {
    seq(|s|, i requires 0 <= i < |s| => s[i].name)
  }

  function VolumeNames(s: seq<Volume>): (r: seq<string>)
    ensures |r| == |s| && forall i :: 0 <= i < |s| ==> r[i] == s[i].name
  {
    seq(|s|, i requires 0 <= i < |s| => s[i].name)
  }

  function SharesPID(t: Template): bool {
    t.sharePID.GetOr(false)
  }

  /** "" when nothing is injected. */
  function InjectedId(w: Workload): string {
    if w.state.Some? then w.state.value.canonicalId else ""
  }

  function Injected(w: Workload, id: string, spec: Spec): Workload {
    var t := w.template;
    w.(template := Template(
         t.containers + spec.containers, t.initContainers + spec.initContainers, t.volumes + spec.volumes,
         t.labels + spec.labels + map[INJECTED := "true", WORKLOAD_KIND := w.kind, WORKLOAD_NAME := w.name],
         t.annotations + spec.annotations, Some(true)),
       state := Some(State(id, ContainerNames(spec.containers), ContainerNames(spec.initContainers),
                           VolumeNames(spec.volumes), SharesPID(t))))
  }

  function ToSet(s: seq<string>): set<string> {
    set x | x in s && x != ""
  }

  function KeepContainers(s: seq<Container>, remove: set<string>): seq<Container> {
    if s == [] then []
    else if s[0].name in remove then KeepContainers(s[1..], remove)
    else [s[0]] + KeepContainers(s[1..], remove)
  }

  function KeepVolumes(s: seq<Volume>, remove: set<string>): seq<Volume> {
    if s == [] then []
    else if s[0].name in remove then KeepVolumes(s[1..], remove)
    else [s[0]] + KeepVolumes(s[1..], remove)
  }

  function Ejected(w: Workload): Workload
    requires w.state.Some?
  {
    var s, t := w.state.value, w.template;
    w.(template := Template(
         KeepContainers(t.containers, ToSet(s.containers)), KeepContainers(t.initContainers, ToSet(s.initContainers)),
         KeepVolumes(t.volumes, ToSet(s.volumes)), t.labels - INJECTED_LABELS, t.annotations - INJECTED_ANNOTATIONS,
         Some(s.sharePID)),
       state := None)
  }

  // ---- the code

  class WorkloadStore {
    var stored: Workload
    ghost var failed: bool  // whether any update failed

    constructor (w: Workload)
      ensures stored == w
    {
      stored := w;
    }

    /** Replaces the workload, or fails and changes nothing. */
    method Update(w: Workload) returns (ok: bool)
      modifies this
      ensures stored == if ok then w else old(stored)
      ensures failed == (old(failed) || !ok)
    {
      ok := *;
      failed := failed || !ok;
      if ok {
        stored := w;
      }
    }

    method InjectIntoWorkload(id: string, spec: Spec) returns (r: Result<(), InjectError>)
      modifies this
      ensures r.Ok? ==> InjectedId(old(stored)) == "" && stored == Injected(old(stored), id, spec)
      ensures r.Err? ==> stored == old(stored)
      ensures InjectedId(old(stored)) != "" ==> r == Err(AlreadyInjected(InjectedId(old(stored))))
      ensures InjectedId(old(stored)) == "" ==> r.Ok? || (r == Err(UpdateFailed) && failed)
    {
      var existing := InjectedId(stored);
      if existing != "" {
        return Err(AlreadyInjected(existing));
      }
      var names := NamesOf(spec.containers);
      var initNames := NamesOf(spec.initContainers);
      var volumeNames: seq<string> := [];
      for i := 0 to |spec.volumes|
        invariant volumeNames == VolumeNames(spec.volumes)[..i]
      {
        volumeNames := volumeNames + [spec.volumes[i].name];
      }
      assert volumeNames == VolumeNames(spec.volumes);
      var t := stored.template;
      var state := State(id, names, initNames, volumeNames, t.sharePID.Some? && t.sharePID.value);
      var labels := AddAll(t.labels, spec.labels);
      labels := labels[INJECTED := "true"];
      labels := labels[WORKLOAD_KIND := stored.kind];
      labels := labels[WORKLOAD_NAME := stored.name];
      var annotations := AddAll(t.annotations, spec.annotations);
      t := t.(labels := labels, annotations := annotations, sharePID := Some(true));
      t := t.(initContainers := t.initContainers + spec.initContainers);
      t := t.(containers := t.containers + spec.containers);
      t := t.(volumes := t.volumes + spec.volumes);
      ThreeMore(stored.template.labels + spec.labels, stored.kind, stored.name);
      var ok := Update(stored.(template := t, state := Some(state)));
      r := if ok then Ok(()) else Err(UpdateFailed);
    }

    method EjectFromWorkload(id: string) returns (r: Result<string, InjectError>)
      modifies this
      ensures r.Ok? ==> old(stored).state.Some? && old(stored).state.value.canonicalId == id == r.value
                        && stored == Ejected(old(stored))
      ensures r.Err? ==> stored == old(stored)
      ensures r.Err? && r.error.NotInjected? <==> old(stored).state.None? || old(stored).state.value.canonicalId != id
      ensures r.Err? ==> r.error.NotInjected? || (r == Err(UpdateFailed) && failed)
    {
      if stored.state.None? || stored.state.value.canonicalId != id {
        return Err(NotInjected(InjectedId(stored)));
      }
      var state, t := stored.state.value, stored.template;
      var containers := FilterContainers(t.containers, ToSet(state.containers));
      var initContainers := FilterContainers(t.initContainers, ToSet(state.initContainers));
      var volumes := FilterVolumes(t.volumes, ToSet(state.volumes));
      var labels := Without(t.labels, INJECTED_LABELS);
      var annotations := Without(t.annotations, INJECTED_ANNOTATIONS);
      t := Template(containers, initContainers, volumes, labels, annotations, if state.sharePID then Some(true) else Some(false));
      var ok := Update(stored.(template := t, state := None));
      r := if ok then Ok(state.canonicalId) else Err(UpdateFailed);
    }
  }

  lemma ThreeMore(m: map<string, string>, kind: string, name: string)
    ensures m[INJECTED := "true"][WORKLOAD_KIND := kind][WORKLOAD_NAME := name]
            == m + map[INJECTED := "true", WORKLOAD_KIND := kind, WORKLOAD_NAME := name]
  {
  }

  method NamesOf(s: seq<Container>) returns (names: seq<string>)
    ensures names == ContainerNames(s)
  {
    names := [];
    for i := 0 to |s|
      invariant names == ContainerNames(s)[..i]
    {
      names := names + [s[i].name];
    }
  }

  /** Go maps are gone through in any order. */
  method AddAll(m: map<string, string>, more: map<string, string>) returns (r: map<string, string>)
    ensures r == m + more
  {
    r := m;
    var todo := more.Keys;
    while todo != {}
      invariant todo <= more.Keys
      invariant r == m + (map k | k in more && k !in todo :: more[k])
    {
      var k :| k in todo;
      todo := todo - {k};
      r := r[k := more[k]];
    }
  }

  method Without(m: map<string, string>, keys: set<string>) returns (r: map<string, string>)
    ensures r == m - keys
  {
    r := map[];
    var todo := m.Keys;
    while todo != {}
      invariant todo <= m.Keys
      invariant r == map k | k in m && k !in todo && k !in keys :: m[k]
    {
      var k :| k in todo;
      todo := todo - {k};
      if k !in keys {
        r := r[k := m[k]];
      }
    }
  }

  method FilterContainers(s: seq<Container>, remove: set<string>) returns (out: seq<Container>)
    ensures out == KeepContainers(s, remove)
  {
    out := [];
    for i := 0 to |s|
      invariant KeepContainers(s, remove) == out + KeepContainers(s[i..], remove)
    {
      assert s[i..][0] == s[i] && s[i..][1..] == s[i + 1..];
      if s[i].name !in remove {
        out := out + [s[i]];
      }
    }
    assert s[|s|..] == [];
  }

  method FilterVolumes(s: seq<Volume>, remove: set<string>) returns (out: seq<Volume>)
    ensures out == KeepVolumes(s, remove)
  {
    out := [];
    for i := 0 to |s|
      invariant KeepVolumes(s, remove) == out + KeepVolumes(s[i..], remove)
    {
      assert s[i..][0] == s[i] && s[i..][1..] == s[i + 1..];
      if s[i].name !in remove {
        out := out + [s[i]];
      }
    }
    assert s[|s|..] == [];
  }

  /** What an injected workload's pods are known by: the three labels put on last, then those
      of the spec, then the workload's own. Their processes share one namespace. */
  lemma InjectedMarks(w: Workload, id: string, spec: Spec, key: string)
    ensures var t := Injected(w, id, spec).template;
            && t.sharePID == Some(true)
            && t.labels[INJECTED] == "true" && t.labels[WORKLOAD_KIND] == w.kind && t.labels[WORKLOAD_NAME] == w.name
            && (key != INJECTED && key != WORKLOAD_KIND && key != WORKLOAD_NAME ==>
                  (key in t.labels <==> key in spec.labels || key in w.template.labels)
                  && (key in t.labels ==>
                        t.labels[key] == if key in spec.labels then spec.labels[key] else w.template.labels[key]))
            && (key in t.annotations <==> key in spec.annotations || key in w.template.annotations)
            && (key in t.annotations ==>
                  t.annotations[key] == if key in spec.annotations then spec.annotations[key] else w.template.annotations[key])
  {
    assert INJECTED[11] == 'i' && WORKLOAD_KIND[11] == 'w' && WORKLOAD_NAME[11] == 'w';
    assert WORKLOAD_KIND[20] == 'k' && WORKLOAD_NAME[20] == 'n';
  }

  // ---- ejection undoes injection

  /** whole is own and injected shuffled together, each in its order. */
  predicate Interleaves<T(==)>(whole: seq<T>, own: seq<T>, injected: seq<T>)
    decreases |whole|
  {
    if whole == [] then own == [] && injected == []
    else
      || (own != [] && whole[0] == own[0] && Interleaves(whole[1..], own[1..], injected))
      || (injected != [] && whole[0] == injected[0] && Interleaves(whole[1..], own, injected[1..]))
  }

  lemma {:induction false} KeepsOwnContainers(whole: seq<Container>, own: seq<Container>, injected: seq<Container>, remove: set<string>)
    requires Interleaves(whole, own, injected)
    requires forall c <- own :: c.name !in remove
    requires forall c <- injected :: c.name in remove
    ensures KeepContainers(whole, remove) == own
    decreases |whole|
  {
    if whole != [] {
      if whole[0].name in remove {
        assert own != [] ==> own[0] in own;
        KeepsOwnContainers(whole[1..], own, injected[1..], remove);
      } else {
        assert injected != [] ==> injected[0] in injected;
        KeepsOwnContainers(whole[1..], own[1..], injected, remove);
        assert own == [own[0]] + own[1..];
      }
    }
  }

  lemma {:induction false} KeepsOwnVolumes(whole: seq<Volume>, own: seq<Volume>, injected: seq<Volume>, remove: set<string>)
    requires Interleaves(whole, own, injected)
    requires forall v <- own :: v.name !in remove
    requires forall v <- injected :: v.name in remove
    ensures KeepVolumes(whole, remove) == own
    decreases |whole|
  {
    if whole != [] {
      if whole[0].name in remove {
        assert own != [] ==> own[0] in own;
        KeepsOwnVolumes(whole[1..], own, injected[1..], remove);
      } else {
        assert injected != [] ==> injected[0] in injected;
        KeepsOwnVolumes(whole[1..], own[1..], injected, remove);
        assert own == [own[0]] + own[1..];
      }
    }
  }

  lemma {:induction false} AppendInterleaves<T>(own: seq<T>, injected: seq<T>)
    ensures Interleaves(own + injected, own, injected)
    decreases |own| + |injected|
  {
    if own != [] {
      AppendInterleaves(own[1..], injected);
      assert (own + injected)[1..] == own[1..] + injected;
    } else if injected != [] {
      AppendInterleaves(own, injected[1..]);
      assert (own + injected)[1..] == own + injected[1..];
    }
  }

  /** The template is own with parts of spec anywhere in between, whatever was edited. */
  predicate Holds(t: Template, own: Template, part: Spec) {
    && Interleaves(t.containers, own.containers, part.containers)
    && Interleaves(t.initContainers, own.initContainers, part.initContainers)
    && Interleaves(t.volumes, own.volumes, part.volumes)
    && t.labels - INJECTED_LABELS == own.labels
    && t.annotations - INJECTED_ANNOTATIONS == own.annotations
  }

  predicate PartOf(part: Spec, s: State) {
    && (forall c <- part.containers :: c.name in s.containers && c.name != "")
    && (forall c <- part.initContainers :: c.name in s.initContainers && c.name != "")
    && (forall v <- part.volumes :: v.name in s.volumes && v.name != "")
  }

  predicate NoClash(own: Template, s: State) {
    && (forall c <- own.containers :: c.name !in s.containers || c.name == "")
    && (forall c <- own.initContainers :: c.name !in s.initContainers || c.name == "")
    && (forall v <- own.volumes :: v.name !in s.volumes || v.name == "")
  }

  /** Ejection gives back exactly what is not injected, in order, and the process sharing the
      workload had, however the workload was edited since. */
  lemma EjectAfterEdits(w: Workload, own: Template, part: Spec)
    requires w.state.Some? && NoClash(own, w.state.value) && PartOf(part, w.state.value)
    requires Holds(w.template, own, part)
    ensures Ejected(w) == w.(template := own.(sharePID := Some(w.state.value.sharePID)), state := None)
  {
    var s := w.state.value;
    KeepsOwnContainers(w.template.containers, own.containers, part.containers, ToSet(s.containers));
    KeepsOwnContainers(w.template.initContainers, own.initContainers, part.initContainers, ToSet(s.initContainers));
    KeepsOwnVolumes(w.template.volumes, own.volumes, part.volumes, ToSet(s.volumes));
  }

  predicate SpecNames(spec: Spec) {
    && (forall c <- spec.containers :: c.name != "") && (forall c <- spec.initContainers :: c.name != "")
    && (forall v <- spec.volumes :: v.name != "")
    && spec.labels.Keys <= INJECTED_LABELS && spec.annotations.Keys <= INJECTED_ANNOTATIONS
  }

  /** The workload carries none of the labels and annotations injection adds. */
  predicate Untouched(t: Template) {
    t.labels.Keys !! INJECTED_LABELS && t.annotations.Keys !! INJECTED_ANNOTATIONS
  }

  predicate Fits(t: Template, spec: Spec) {
    && SpecNames(spec)
    && (forall c <- t.containers, d <- spec.containers :: c.name != d.name)
    && (forall c <- t.initContainers, d <- spec.initContainers :: c.name != d.name)
    && (forall v <- t.volumes, x <- spec.volumes :: v.name != x.name)
  }

  lemma InjectedHolds(w: Workload, id: string, spec: Spec)
    requires Fits(w.template, spec) && Untouched(w.template)
    ensures var i := Injected(w, id, spec);
            Holds(i.template, w.template, spec) && NoClash(w.template, i.state.value) && PartOf(spec, i.state.value)
  {
    var t, i := w.template, Injected(w, id, spec);
    AppendInterleaves(t.containers, spec.containers);
    AppendInterleaves(t.initContainers, spec.initContainers);
    AppendInterleaves(t.volumes, spec.volumes);
    OwnLabelsStay(t.labels, spec.labels, w.kind, w.name);
    assert i.template.annotations - INJECTED_ANNOTATIONS == t.annotations;
    ContainerNamesAre(spec.containers);
    ContainerNamesAre(spec.initContainers);
    VolumeNamesAre(spec.volumes);
  }

  lemma OwnLabelsStay(own: map<string, string>, added: map<string, string>, kind: string, name: string)
    requires own.Keys !! INJECTED_LABELS && added.Keys <= INJECTED_LABELS
    ensures (own + added + map[INJECTED := "true", WORKLOAD_KIND := kind, WORKLOAD_NAME := name]) - INJECTED_LABELS == own
  {
    var three := map[INJECTED := "true", WORKLOAD_KIND := kind, WORKLOAD_NAME := name];
    assert three.Keys == {INJECTED, WORKLOAD_KIND, WORKLOAD_NAME} <= INJECTED_LABELS;
    OwnStays(own, added, three, INJECTED_LABELS);
  }

  lemma OwnStays(own: map<string, string>, added: map<string, string>, more: map<string, string>, keys: set<string>)
    requires own.Keys !! keys && added.Keys <= keys && more.Keys <= keys
    ensures (own + added + more) - keys == own
  {
  }

  lemma ContainerNamesAre(s: seq<Container>)
    ensures forall n :: n in ContainerNames(s) <==> exists c <- s :: c.name == n
  {
    forall c | c in s
      ensures c.name in ContainerNames(s)
    {
      var j :| 0 <= j < |s| && s[j] == c;
      assert ContainerNames(s)[j] == c.name;
    }
  }

  lemma VolumeNamesAre(s: seq<Volume>)
    ensures forall n :: n in VolumeNames(s) <==> exists v <- s :: v.name == n
  {
    forall v | v in s
      ensures v.name in VolumeNames(s)
    {
      var j :| 0 <= j < |s| && s[j] == v;
      assert VolumeNames(s)[j] == v.name;
    }
  }

  /** A workload as ejection leaves it: no process sharing at all is written as false. */
  function Plain(w: Workload): Workload {
    w.(template := w.template.(sharePID := Some(SharesPID(w.template))))
  }

  lemma EjectUndoesInject(w: Workload, id: string, spec: Spec)
    requires Fits(w.template, spec) && Untouched(w.template) && w.state.None?
    ensures Ejected(Injected(w, id, spec)) == Plain(w)
  {
    InjectedHolds(w, id, spec);
    EjectAfterEdits(Injected(w, id, spec), w.template, spec);
  }

  // ---- any sequence of injections and ejections

  datatype Call = Inject(id: string, spec: Spec, updated: bool) | Eject(id: string, updated: bool)

  /** What one call leaves; updated says whether the API server takes the update. */
  function After(w: Workload, c: Call): Workload {
    match c
    case Inject(id, spec, updated) => if updated && InjectedId(w) == "" then Injected(w, id, spec) else w
    case Eject(id, updated) =>
      if updated && w.state.Some? && w.state.value.canonicalId == id then Ejected(w) else w
  }

  function AfterAll(w: Workload, calls: seq<Call>): Workload {
    if calls == [] then w else After(AfterAll(w, calls[..|calls| - 1]), calls[|calls| - 1])
  }

  /** Own is all the workload has apart from one injection at the most, and what is injected
      is just what the state lists. */
  ghost predicate Tracks(w: Workload, base: Workload, spec: Option<Spec>) {
    if spec.None? then w == base || w == Plain(base)
    else spec.Some? && exists id :: id != "" && (w == Injected(base, id, spec.value) || w == Injected(Plain(base), id, spec.value))
  }

  /** After any calls, failing ones included, the workload is what it was, process sharing
      written out, or that with one spec injected and recorded. */
  lemma {:induction false} CallsTrack(base: Workload, calls: seq<Call>) returns (spec: Option<Spec>)
    requires base.state.None? && Untouched(base.template)
    requires forall c <- calls :: c.Inject? ==> c.id != "" && Fits(base.template, c.spec)
    ensures Tracks(AfterAll(base, calls), base, spec)
    ensures spec.Some? ==> Fits(base.template, spec.value)
  {
    if calls == [] {
      return None;
    }
    var init, c := calls[..|calls| - 1], calls[|calls| - 1];
    assert forall d <- init :: d in calls;
    assert c in calls;
    spec := CallsTrack(base, init);
    var w := AfterAll(base, init);
    if spec.None? {
      if c.Inject? && c.updated {
        spec := Some(c.spec);
      }
    } else {
      if c.Eject? && c.updated && w.state.value.canonicalId == c.id {
        var id :| id != "" && (w == Injected(base, id, spec.value) || w == Injected(Plain(base), id, spec.value));
        EjectUndoesInject(base, id, spec.value);
        EjectUndoesInject(Plain(base), id, spec.value);
        spec := None;
      }
    }
  }

  /** After any calls the recorded state lists exactly the names that the workload has more
      than its own, which come first, and what it was before is written down with them. */
  lemma StateListsInjected(base: Workload, calls: seq<Call>)
    requires base.state.None? && Untouched(base.template)
    requires forall c <- calls :: c.Inject? ==> c.id != "" && Fits(base.template, c.spec)
    ensures var w, t, own := AfterAll(base, calls), AfterAll(base, calls).template, base.template;
            && own.containers <= t.containers && own.initContainers <= t.initContainers && own.volumes <= t.volumes
            && match w.state
               case None => t.containers == own.containers && t.initContainers == own.initContainers && t.volumes == own.volumes
               case Some(s) =>
                 && s.containers == ContainerNames(t.containers[|own.containers|..])
                 && s.initContainers == ContainerNames(t.initContainers[|own.initContainers|..])
                 && s.volumes == VolumeNames(t.volumes[|own.volumes|..])
                 && s.sharePID == SharesPID(own)
  {
    var spec := CallsTrack(base, calls);
  }

  // ---- the spec of a workspace

  /** The rendered workspace pod. */
  datatype Pod = Pod(containers: seq<Container>, initContainers: seq<Container>, volumes: seq<Volume>,
                     labels: map<string, string>, annotations: map<string, string>)

  /** Secrets stay behind, apart from the workspace's certificate and token. */
  predicate Skipped(v: Volume, id: string) {
    v.source.Secret? && v.source.secret != id + "-tls" && v.source.secret != id + "-pat"
  }

  predicate SkippedName(volumes: seq<Volume>, name: string, id: string) {
    exists v <- volumes :: v.name == name && Skipped(v, id)
  }

  predicate Mapped(volumes: seq<Volume>, name: string, id: string) {
    (exists v <- volumes :: v.name == name) && !SkippedName(volumes, name, id)
  }

  function Prefix(id: string): string {
    id + "-"
  }

  /** Mounts follow their volume to its new name; a mount of a volume that stays behind goes. */
  function Rewritten(mounts: seq<Mount>, volumes: seq<Volume>, id: string): seq<Mount> {
    if mounts == [] then []
    else if Mapped(volumes, mounts[0].volume, id) then
      [mounts[0].(volume := Prefix(id) + mounts[0].volume)] + Rewritten(mounts[1..], volumes, id)
    else Rewritten(mounts[1..], volumes, id)
  }

  function Renamed(s: seq<Container>, volumes: seq<Volume>, id: string): (r: seq<Container>)
    ensures |r| == |s|
    ensures forall i :: 0 <= i < |s| ==>
              r[i] == s[i].(name := Prefix(id) + s[i].name, mounts := Rewritten(s[i].mounts, volumes, id))
  {
    seq(|s|, i requires 0 <= i < |s| => s[i].(name := Prefix(id) + s[i].name, mounts := Rewritten(s[i].mounts, volumes, id)))
  }

  function SharedClaim(claim: string, sharedPrefix: string): string {
    if "pvc-" <= claim && !("pvc-" + sharedPrefix <= claim) then "pvc-" + sharedPrefix + claim[4..] else claim
  }

  function Moved(v: Volume, id: string, sharedPrefix: string): Volume {
    Volume(Prefix(id) + v.name, if v.source.Claim? then Claim(SharedClaim(v.source.claim, sharedPrefix)) else v.source)
  }

  function KeptVolumes(s: seq<Volume>, volumes: seq<Volume>, id: string, sharedPrefix: string): seq<Volume> {
    if s == [] then []
    else if SkippedName(volumes, s[0].name, id) then KeptVolumes(s[1..], volumes, id, sharedPrefix)
    else [Moved(s[0], id, sharedPrefix)] + KeptVolumes(s[1..], volumes, id, sharedPrefix)
  }

  function SpecOf(pod: Pod, id: string, jobId: string, sharedPrefix: string): Spec {
    Spec(Renamed(pod.containers, pod.volumes, id), Renamed(pod.initContainers, pod.volumes, id),
         KeptVolumes(pod.volumes, pod.volumes, id, sharedPrefix),
         (map k | k in pod.labels && k in ALLOWED_LABELS :: pod.labels[k]) + map[CANONICAL_ID := id, JOB_ID := jobId],
         if USER_STR in pod.annotations && pod.annotations[USER_STR] != "" then map[USER_STR := pod.annotations[USER_STR]] else map[])
  }

  method InjectionSpecFromTemplate(pod: Pod, id: string, jobId: string, sharedPrefix: string) returns (spec: Spec)
    ensures spec == SpecOf(pod, id, jobId, sharedPrefix)
  {
    var skip: set<string> := {};
    for i := 0 to |pod.volumes|
      invariant skip == set v <- pod.volumes[..i] | Skipped(v, id) :: v.name
    {
      if Skipped(pod.volumes[i], id) {
        skip := skip + {pod.volumes[i].name};
      }
      assert pod.volumes[..i + 1] == pod.volumes[..i] + [pod.volumes[i]];
    }
    assert pod.volumes[..|pod.volumes|] == pod.volumes;
    var volMap: map<string, string> := map[];
    for i := 0 to |pod.volumes|
      invariant volMap.Keys == set v <- pod.volumes[..i] | v.name !in skip :: v.name
      invariant forall n <- volMap :: volMap[n] == Prefix(id) + n
    {
      var name := pod.volumes[i].name;
      if name !in skip {
        volMap := volMap[name := Prefix(id) + name];
      }
      assert pod.volumes[..i + 1] == pod.volumes[..i] + [pod.volumes[i]];
    }
    assert forall n :: n in volMap <==> Mapped(pod.volumes, n, id);
    var containers := RenameContainers(pod.containers, volMap, pod.volumes, id);
    var initContainers := RenameContainers(pod.initContainers, volMap, pod.volumes, id);
    var volumes := MoveVolumes(pod.volumes, skip, id, sharedPrefix);
    var labels := Without(pod.labels, pod.labels.Keys - ALLOWED_LABELS);
    labels := labels[CANONICAL_ID := id];
    labels := labels[JOB_ID := jobId];
    TwoMore(pod.labels, id, jobId);
    var annotations: map<string, string> := map[];
    if USER_STR in pod.annotations {
      if pod.annotations[USER_STR] != "" {
        annotations := map[USER_STR := pod.annotations[USER_STR]];
      }
    }
    spec := Spec(containers, initContainers, volumes, labels, annotations);
  }

  lemma TwoMore(m: map<string, string>, id: string, jobId: string)
    ensures (m - (m.Keys - ALLOWED_LABELS))[CANONICAL_ID := id][JOB_ID := jobId] ==
            (map k | k in m && k in ALLOWED_LABELS :: m[k]) + map[CANONICAL_ID := id, JOB_ID := jobId]
  {
  }

  method RenameContainers(s: seq<Container>, volMap: map<string, string>, ghost volumes: seq<Volume>, id: string)
      returns (out: seq<Container>)
    requires forall n :: n in volMap <==> Mapped(volumes, n, id)
    requires forall n <- volMap :: volMap[n] == Prefix(id) + n
    ensures out == Renamed(s, volumes, id)
  {
    out := [];
    for i := 0 to |s|
      invariant out == Renamed(s, volumes, id)[..i]
    {
      var mounts := RewriteMounts(s[i].mounts, volMap, volumes, id);
      out := out + [s[i].(name := Prefix(id) + s[i].name, mounts := mounts)];
    }
  }

  method RewriteMounts(mounts: seq<Mount>, volMap: map<string, string>, ghost volumes: seq<Volume>, id: string)
      returns (out: seq<Mount>)
    requires forall n :: n in volMap <==> Mapped(volumes, n, id)
    requires forall n <- volMap :: volMap[n] == Prefix(id) + n
    ensures out == Rewritten(mounts, volumes, id)
  {
    out := [];
    for i := 0 to |mounts|
      invariant Rewritten(mounts, volumes, id) == out + Rewritten(mounts[i..], volumes, id)
    {
      var m := mounts[i];
      assert mounts[i..][0] == m && mounts[i..][1..] == mounts[i + 1..];
      if m.volume in volMap {
        out := out + [m.(volume := volMap[m.volume])];
      }
    }
    assert mounts[|mounts|..] == [];
  }

  method MoveVolumes(volumes: seq<Volume>, skip: set<string>, id: string, sharedPrefix: string) returns (out: seq<Volume>)
    requires forall n :: n in skip <==> SkippedName(volumes, n, id)
    ensures out == KeptVolumes(volumes, volumes, id, sharedPrefix)
  {
    out := [];
    for i := 0 to |volumes|
      invariant KeptVolumes(volumes, volumes, id, sharedPrefix) == out + KeptVolumes(volumes[i..], volumes, id, sharedPrefix)
    {
      var v := volumes[i];
      assert volumes[i..][0] == v && volumes[i..][1..] == volumes[i + 1..];
      if v.name in skip {
        continue;
      }
      out := out + [Moved(v, id, sharedPrefix)];
    }
    assert volumes[|volumes|..] == [];
  }

  /** No volume is mounted that is not there, and only what stays behind is not mounted. */
  lemma MountsMatchVolumes(pod: Pod, id: string, jobId: string, sharedPrefix: string, i: nat)
    requires i < |pod.containers|
    ensures var spec := SpecOf(pod, id, jobId, sharedPrefix);
            && (forall m <- spec.containers[i].mounts :: exists v <- spec.volumes :: v.name == m.volume)
            && (forall m <- pod.containers[i].mounts :: Mapped(pod.volumes, m.volume, id) ==>
                  m.(volume := Prefix(id) + m.volume) in spec.containers[i].mounts)
  {
    MountsOfMapped(pod.containers[i].mounts, pod.volumes, id);
    forall n | Mapped(pod.volumes, n, id)
      ensures exists v <- KeptVolumes(pod.volumes, pod.volumes, id, sharedPrefix) :: v.name == Prefix(id) + n
    {
      VolumeIsKept(pod.volumes, pod.volumes, n, id, sharedPrefix);
    }
  }

  lemma {:induction false} MountsOfMapped(mounts: seq<Mount>, volumes: seq<Volume>, id: string)
    ensures forall m <- Rewritten(mounts, volumes, id) ::
              exists n :: Mapped(volumes, n, id) && m.volume == Prefix(id) + n
    ensures forall m <- mounts :: Mapped(volumes, m.volume, id) ==>
              m.(volume := Prefix(id) + m.volume) in Rewritten(mounts, volumes, id)
  {
    if mounts != [] {
      MountsOfMapped(mounts[1..], volumes, id);
      assert mounts == [mounts[0]] + mounts[1..];
    }
  }

  lemma {:induction false} VolumeIsKept(s: seq<Volume>, volumes: seq<Volume>, name: string, id: string, sharedPrefix: string)
    requires (exists v <- s :: v.name == name) && !SkippedName(volumes, name, id)
    ensures exists v <- KeptVolumes(s, volumes, id, sharedPrefix) :: v.name == Prefix(id) + name
  {
    if s[0].name == name {
      assert KeptVolumes(s, volumes, id, sharedPrefix)[0].name == Prefix(id) + name;
    } else {
      assert s == [s[0]] + s[1..];
      VolumeIsKept(s[1..], volumes, name, id, sharedPrefix);
      var v :| v in KeptVolumes(s[1..], volumes, id, sharedPrefix) && v.name == Prefix(id) + name;
      assert v in KeptVolumes(s, volumes, id, sharedPrefix);
    }
  }

  /** What becomes of a volume when names are distinct: a Secret other than the workspace's
      certificate and token stays behind; everything else comes along under the workspace's
      prefix, with its source as it was, except that a claim whose name begins with pvc- gets
      the shared prefix after that unless it has it. */
  lemma VolumeAfter(pod: Pod, id: string, jobId: string, sharedPrefix: string, v: Volume)
    requires v in pod.volumes && DistinctVolumes(pod.volumes)
    ensures var foreign := v.source.Secret? && v.source.secret != id + "-tls" && v.source.secret != id + "-pat";
            var after := SpecOf(pod, id, jobId, sharedPrefix).volumes;
            && (foreign <==> forall w <- after :: w.name != id + "-" + v.name)
            && forall w <- after :: w.name == id + "-" + v.name ==>
                 if v.source.Claim? && "pvc-" <= v.source.claim && !("pvc-" + sharedPrefix <= v.source.claim)
                 then exists rest :: v.source.claim == "pvc-" + rest && w.source == Claim("pvc-" + sharedPrefix + rest)
                 else w.source == v.source
  {
    var after := KeptVolumes(pod.volumes, pod.volumes, id, sharedPrefix);
    MovedFrom(pod.volumes, pod.volumes, id, sharedPrefix);
    if !SkippedName(pod.volumes, v.name, id) {
      VolumeIsKept(pod.volumes, pod.volumes, v.name, id, sharedPrefix);
    }
    forall w | w in after && w.name == id + "-" + v.name
      ensures w == Moved(v, id, sharedPrefix)
    {
      var u :| u in pod.volumes && w == Moved(u, id, sharedPrefix) && !SkippedName(pod.volumes, u.name, id);
      assert u.name == (Prefix(id) + u.name)[|Prefix(id)|..] && v.name == (Prefix(id) + v.name)[|Prefix(id)|..];
    }
    if v.source.Claim? && "pvc-" <= v.source.claim {
      assert v.source.claim == "pvc-" + v.source.claim[4..];
    }
  }

  predicate DistinctVolumes(s: seq<Volume>) {
    forall v <- s, w <- s :: v.name == w.name ==> v == w
  }

  lemma {:induction false} MovedFrom(s: seq<Volume>, volumes: seq<Volume>, id: string, sharedPrefix: string)
    ensures forall w <- KeptVolumes(s, volumes, id, sharedPrefix) ::
              exists u <- s :: w == Moved(u, id, sharedPrefix) && !SkippedName(volumes, u.name, id)
  {
    if s != [] {
      MovedFrom(s[1..], volumes, id, sharedPrefix);
      assert s == [s[0]] + s[1..];
    }
  }

  /** The labels of the spec: those of the workspace that may go along, its id and its job. */
  lemma LabelsAfter(pod: Pod, id: string, jobId: string, sharedPrefix: string, key: string)
    ensures var after := SpecOf(pod, id, jobId, sharedPrefix).labels;
            && after[CANONICAL_ID] == id && after[JOB_ID] == jobId
            && (key != CANONICAL_ID && key != JOB_ID ==>
                  (key in after <==> key in pod.labels && key in {USERNAME, ORGANIZATION, BLUEPRINT, BLUEPRINT_REVISION})
                  && (key in after ==> after[key] == pod.labels[key]))
  {
    assert CANONICAL_ID[11] == 'c' && JOB_ID[11] == 'j';
  }

  /** A workload none of whose names begins like the workspace's can take its spec, whatever
      the workspace pod looks like. */
  lemma SpecFits(pod: Pod, id: string, jobId: string, sharedPrefix: string, t: Template)
    requires forall c <- t.containers :: !(Prefix(id) <= c.name)
    requires forall c <- t.initContainers :: !(Prefix(id) <= c.name)
    requires forall v <- t.volumes :: !(Prefix(id) <= v.name)
    ensures Fits(t, SpecOf(pod, id, jobId, sharedPrefix))
  {
    KeptNamesPrefixed(pod.volumes, pod.volumes, id, sharedPrefix);
    assert Prefix(id) != "";
    var labels := SpecOf(pod, id, jobId, sharedPrefix).labels;
    assert ALLOWED_LABELS <= INJECTED_LABELS;
    assert labels.Keys <= ALLOWED_LABELS + {CANONICAL_ID, JOB_ID};
  }

  lemma {:induction false} KeptNamesPrefixed(s: seq<Volume>, volumes: seq<Volume>, id: string, sharedPrefix: string)
    ensures forall v <- KeptVolumes(s, volumes, id, sharedPrefix) :: Prefix(id) <= v.name
  {
    if s != [] {
      KeptNamesPrefixed(s[1..], volumes, id, sharedPrefix);
    }
  }
}
