/** Querying workspaces: what is pushed down to the Kubernetes listing and what is checked in
    memory (internal/workspace/query.go, workspace.go). The listings are taken of one
    snapshot of the cluster. */
module Query {
  import opened Prelude
  import opened Sequences
  import opened Globs

  const USERNAME := "k8shell.io/username"
  const ORGANIZATION := "k8shell.io/organization"
  const BLUEPRINT := "k8shell.io/blueprint"
  const INJECTED := "k8shell.io/injected"
  const INSTANCE := "app.kubernetes.io/instance"

  type Labels = map<string, string>

  /** described tells whether the pod has what a workspace's details need. */
  datatype Pod = Pod(name: string, labels: Labels, described: bool)

  /** A deployed workspace release: its own labels and the pod of its manifest. */
  datatype Release = Release(labels: Labels, pod: Pod)

  /** The pods of the target namespace, the releases of the workspace chart there and the
      pods of the namespaces workspaces are injected into. */
  datatype Snapshot = Snapshot(pods: seq<Pod>, releases: seq<Release>, foreign: seq<Pod>)

  datatype Details = Details(pod: Pod, stopped: bool) {
    function Label(key: string): string {
      if key in pod.labels then pod.labels[key] else ""
    }
  }

  datatype Options = Options(usernames: Option<seq<string>>, organization: string, blueprint: string, name: string)

  const EVERYTHING := Options(None, "", "", "")

  // ---- filters

  datatype Operator = EQ | NE | IN | EXISTS | Ordering

  datatype Condition = Condition(field: string, op: Operator, values: seq<string>)

  datatype Filters = Filters(any: bool, conditions: seq<Condition>)

  /** Conditions on all other fields, None for one that cannot be evaluated. */
  type Evaluator = (Details, Condition) -> Option<bool>

  predicate Pushable(field: string) {
    field == "username" || field == "organization" || field == "blueprint" || field == "name"
  }

  function FieldOf(d: Details, field: string): string {
    if field == "username" then d.Label(USERNAME)
    else if field == "organization" then d.Label(ORGANIZATION)
    else if field == "blueprint" then d.Label(BLUEPRINT)
    else d.pod.name
  }

  /** Validation sees to it that the comparing operators have a value. */
  predicate Valid(f: Filters) {
    forall c <- f.conditions :: c.op == EQ || c.op == NE ==> |c.values| == 1
  }

  ghost function Matches(other: Evaluator, d: Details, c: Condition): Option<bool>
    requires c.op == EQ || c.op == NE ==> |c.values| == 1
  {
    if !Pushable(c.field) then other(d, c) else
    var value := FieldOf(d, c.field);
    var present := value != "";
    match c.op
    case EXISTS => Some(present == (|c.values| == 1 ==> c.values[0] == "true"))
    case EQ => Some(present && GlobFold(c.values[0], value))
    case NE => Some(!(present && GlobFold(c.values[0], value)))
    case IN => Some(present && exists v <- c.values :: EqualFold(v, value))
    case Ordering => if present then None else Some(false)  // no text here is a time
  }

  /** The conditions are gone through until one decides. */
  ghost function MatchesFrom(other: Evaluator, d: Details, f: Filters, i: nat): Option<bool>
    requires Valid(f) && i <= |f.conditions|
    decreases |f.conditions| - i
  {
    if i == |f.conditions| then Some(!f.any)
    else
      var c := f.conditions[i];
      assert c in f.conditions;
      var m := Matches(other, d, c);
      if m.None? then None
      else if m.value == f.any then m
      else MatchesFrom(other, d, f, i + 1)
  }

  ghost function MatchesFilters(other: Evaluator, d: Details, f: Filters): Option<bool>
    requires Valid(f)
  {
    if f.conditions == [] then Some(true) else MatchesFrom(other, d, f, 0)
  }

  /** What authorization leaves to see; usernames None leaves all. */
  datatype Scope = Scope(organization: string, usernames: Option<seq<string>>)

  predicate InScope(s: Scope, d: Details) {
    && (s.organization != "" ==> EqualFold(d.Label(ORGANIZATION), s.organization))
    && (s.usernames.Some? ==> exists u <- s.usernames.value :: EqualFold(u, d.Label(USERNAME)))
  }

  ghost predicate Wanted(other: Evaluator, s: Scope, f: Filters, d: Details)
    requires Valid(f)
  {
    InScope(s, d) && MatchesFilters(other, d, f) == Some(true)
  }

  /** What a query finds in a listing. */
  ghost function Answer(other: Evaluator, s: Scope, f: Filters, listing: seq<Details>): seq<Details>
    requires Valid(f)
  {
    Filter(listing, (d: Details) => Wanted(other, s, f, d))
  }

  // ---- pushdown

  function PushableValues(c: Condition): Option<seq<string>> {
    if c.op != EQ && c.op != IN then None
    else if exists v <- c.values :: !NoWildcard(v) then None
    else if c.values == [] then None
    else Some(c.values)
  }

  function One(c: Condition): string {
    var v := PushableValues(c);
    if v.Some? && |v.value| == 1 then v.value[0] else ""
  }

  /** A field already restricted is left alone. */
  function Push(o: Options, c: Condition): Options {
    if c.field == "username" then if o.usernames.Some? then o else o.(usernames := PushableValues(c))
    else if c.field == "organization" then if o.organization != "" then o else o.(organization := One(c))
    else if c.field == "blueprint" then if o.blueprint != "" then o else o.(blueprint := One(c))
    else if c.field == "name" then if o.name != "" then o else o.(name := One(c))
    else o
  }

  function PushAll(s: seq<Condition>): Options {
    if s == [] then EVERYTHING else Push(PushAll(s[..|s| - 1]), s[|s| - 1])
  }

  function Pushdown(f: Filters): Options {
    if f.any then EVERYTHING else PushAll(f.conditions)
  }

  method PushdownOptionsFromPayload(f: Filters) returns (o: Options)
    ensures o == Pushdown(f)
  {
    o := EVERYTHING;
    if f.any {
      return;
    }
    for i := 0 to |f.conditions|
      invariant o == PushAll(f.conditions[..i])
    {
      var c := f.conditions[i];
      assert f.conditions[..i + 1][..i] == f.conditions[..i];
      if c.field == "username" {
        if o.usernames.Some? {
          continue;
        }
        o := o.(usernames := PushableValues(c));
      } else if c.field == "organization" {
        if o.organization != "" {
          continue;
        }
        var v := PushableValues(c);
        if v.Some? && |v.value| == 1 {
          o := o.(organization := v.value[0]);
        }
      } else if c.field == "blueprint" {
        if o.blueprint != "" {
          continue;
        }
        var v := PushableValues(c);
        if v.Some? && |v.value| == 1 {
          o := o.(blueprint := v.value[0]);
        }
      } else if c.field == "name" {
        if o.name != "" {
          continue;
        }
        var v := PushableValues(c);
        if v.Some? && |v.value| == 1 {
          o := o.(name := v.value[0]);
        }
      }
    }
    assert f.conditions[..|f.conditions|] == f.conditions;
  }

  /** None restricts nothing. */
  function Intersect(a: Option<seq<string>>, b: Option<seq<string>>): Option<seq<string>> {
    if a.None? then b else if b.None? then a else Some(Common(a.value, b.value))
  }

  function Common(a: seq<string>, b: seq<string>): seq<string> {
    if a == [] then []
    else if exists u <- b :: EqualFold(u, a[0]) then [a[0]] + Common(a[1..], b)
    else Common(a[1..], b)
  }

  method IntersectUsernames(a: Option<seq<string>>, b: Option<seq<string>>) returns (r: Option<seq<string>>)
    ensures r == Intersect(a, b)
  {
    if a.None? {
      return b;
    }
    if b.None? {
      return a;
    }
    var out: seq<string> := [];
    for i := 0 to |a.value|
      invariant Common(a.value, b.value) == out + Common(a.value[i..], b.value)
    {
      assert a.value[i..][0] == a.value[i] && a.value[i..][1..] == a.value[i + 1..];
      if exists u <- b.value :: EqualFold(u, a.value[i]) {
        out := out + [a.value[i]];
      }
    }
    assert a.value[|a.value|..] == [];
    assert out == Common(a.value, b.value);
    r := Some(out);
  }

  function Narrow(s: Scope, o: Options): Options {
    var p := if s.organization != "" then o.(organization := s.organization) else o;
    if s.usernames.Some? then p.(usernames := Intersect(p.usernames, s.usernames)) else p
  }

  // ---- listings

  predicate Selects(labels: Labels, key: string, values: seq<string>) {
    key in labels && labels[key] in values
  }

  /** The label selector made of the options. */
  predicate Selected(labels: Labels, o: Options) {
    && (o.usernames.Some? && o.usernames.value != [] ==> Selects(labels, USERNAME, o.usernames.value))
    && (o.organization != "" ==> Selects(labels, ORGANIZATION, [o.organization]))
    && (o.blueprint != "" ==> Selects(labels, BLUEPRINT, [o.blueprint]))
  }

  predicate PodMatches(p: Pod, o: Options) {
    && (o.usernames.Some? && o.usernames.value != [] ==> Details(p, false).Label(USERNAME) in o.usernames.value)
    && (o.organization != "" ==> Details(p, false).Label(ORGANIZATION) == o.organization)
    && (o.blueprint != "" ==> Details(p, false).Label(BLUEPRINT) == o.blueprint)
  }

  /** With a name the pod is fetched, without one the pods are listed. */
  predicate LivePod(p: Pod, o: Options) {
    (if o.name != "" then p.name == o.name else Selected(p.labels, o)) && PodMatches(p, o) && p.described
  }

  predicate StoppedRelease(r: Release, o: Options) {
    && Selected(r.labels, o) && (o.name != "" ==> Selects(r.labels, INSTANCE, [o.name]))
    && PodMatches(r.pod, o) && r.pod.described
  }

  predicate InjectedPod(p: Pod, o: Options) {
    Selects(p.labels, INJECTED, ["true"]) && Selected(p.labels, o) && (o.name != "" ==> p.name == o.name) && p.described
  }

  function Live(s: Snapshot, o: Options): seq<Pod> {
    Filter(s.pods, (p: Pod) => LivePod(p, o))
  }

  predicate NameIn(name: string, s: seq<Pod>) {
    exists p <- s :: p.name == name
  }

  function Stopped(s: Snapshot, o: Options): seq<Release> {
    Filter(s.releases, (r: Release) => StoppedRelease(r, o) && !NameIn(r.pod.name, Live(s, o)))
  }

  function Injected(s: Snapshot, o: Options): seq<Pod> {
    Filter(s.foreign, (p: Pod) => InjectedPod(p, o))
  }

  function Listing(s: Snapshot, o: Options): seq<Details> {
    Map(Live(s, o), (p: Pod) => Details(p, false)) + Map(Stopped(s, o), (r: Release) => Details(r.pod, true))
    + Map(Injected(s, o), (p: Pod) => Details(p, false))
  }

  method GetWorkspaces(s: Snapshot, o: Options) returns (out: seq<Details>)
    ensures out == Listing(s, o)
  {
    var live := ListPods(s.pods, (p: Pod) => LivePod(p, o));
    assert live == Live(s, o);
    out := AppendDetails([], live);
    ghost var a := Map(Live(s, o), (p: Pod) => Details(p, false));
    assert out == a;
    out := AppendStopped(s, o, live, out);
    ghost var b := Map(Stopped(s, o), (r: Release) => Details(r.pod, true));
    assert out == a + b;
    var injected := ListPods(s.foreign, (p: Pod) => InjectedPod(p, o));
    assert injected == Injected(s, o);
    out := AppendDetails(out, injected);
  }

  method AppendStopped(s: Snapshot, o: Options, live: seq<Pod>, front: seq<Details>) returns (out: seq<Details>)
    requires live == Live(s, o)
    ensures out == front + Map(Stopped(s, o), (r: Release) => Details(r.pod, true))
  {
    var liveNames := NamesOf(live);
    var stopped := ListReleases(s.releases, (r: Release) => StoppedRelease(r, o) && !NameIn(r.pod.name, Live(s, o)), liveNames, o, live);
    assert stopped == Stopped(s, o);
    out := AppendReleases(front, stopped);
  }

  method AppendReleases(front: seq<Details>, releases: seq<Release>) returns (out: seq<Details>)
    ensures out == front + Map(releases, (r: Release) => Details(r.pod, true))
  {
    out := front;
    for i := 0 to |releases|
      invariant out == front + Map(releases, (r: Release) => Details(r.pod, true))[..i]
    {
      out := out + [Details(releases[i].pod, true)];
    }
  }

  method NamesOf(pods: seq<Pod>) returns (names: set<string>)
    ensures forall n :: n in names <==> NameIn(n, pods)
  {
    names := {};
    for i := 0 to |pods|
      invariant forall n :: n in names <==> NameIn(n, pods[..i])
    {
      names := names + {pods[i].name};
      assert pods[..i + 1] == pods[..i] + [pods[i]];
    }
    assert pods[..|pods|] == pods;
  }

  method ListReleases(releases: seq<Release>, ghost keep: Release -> bool, liveNames: set<string>, o: Options, ghost live: seq<Pod>)
      returns (out: seq<Release>)
    requires forall n :: n in liveNames <==> NameIn(n, live)
    requires forall r :: keep(r) <==> StoppedRelease(r, o) && !NameIn(r.pod.name, live)
    ensures out == Filter(releases, keep)
  {
    out := [];
    for i := 0 to |releases|
      invariant out == Filter(releases[..i], keep)
    {
      FilterAppend(releases[..i], releases[i], keep);
      assert releases[..i + 1] == releases[..i] + [releases[i]];
      if StoppedRelease(releases[i], o) {
        if releases[i].pod.name !in liveNames {
          out := out + [releases[i]];
        }
      }
    }
    assert releases[..|releases|] == releases;
  }

  method ListPods(pods: seq<Pod>, keep: Pod -> bool) returns (out: seq<Pod>)
    ensures out == Filter(pods, keep)
  {
    out := [];
    for i := 0 to |pods|
      invariant out == Filter(pods[..i], keep)
    {
      FilterAppend(pods[..i], pods[i], keep);
      assert pods[..i + 1] == pods[..i] + [pods[i]];
      if keep(pods[i]) {
        out := out + [pods[i]];
      }
    }
    assert pods[..|pods|] == pods;
  }

  method AppendDetails(front: seq<Details>, pods: seq<Pod>) returns (out: seq<Details>)
    ensures out == front + Map(pods, (p: Pod) => Details(p, false))
  {
    out := front;
    for i := 0 to |pods|
      invariant out == front + Map(pods, (p: Pod) => Details(p, false))[..i]
    {
      out := out + [Details(pods[i], false)];
    }
  }

  // ---- pushdown loses no match

  /** Stored and queried text differ in case nowhere. */
  ghost predicate OneCase(labels: Labels, name: string, o: Options) {
    && (o.usernames.Some? ==> forall v <- o.usernames.value :: SameCase(labels, USERNAME, v))
    && SameCase(labels, ORGANIZATION, o.organization)
    && SameCase(labels, BLUEPRINT, o.blueprint)
    && (EqualFold(name, o.name) ==> name == o.name)
  }

  predicate SameCase(labels: Labels, key: string, value: string) {
    key in labels && EqualFold(labels[key], value) ==> labels[key] == value
  }

  ghost predicate OneCaseOverall(s: Snapshot, o: Options) {
    && (forall p <- s.pods :: OneCase(p.labels, p.name, o))
    && (forall r <- s.releases :: OneCase(r.pod.labels, r.pod.name, o))
    && (forall p <- s.foreign :: OneCase(p.labels, p.name, o))
  }

  predicate SameLabel(a: Labels, b: Labels, key: string) {
    (key in a <==> key in b) && (key in a ==> a[key] == b[key])
  }

  predicate SameLabels(a: Labels, b: Labels) {
    SameLabel(a, b, USERNAME) && SameLabel(a, b, ORGANIZATION) && SameLabel(a, b, BLUEPRINT)
  }

  /** Releases carry the labels and the name of their manifest's pod, and so do live pods of
      that name. */
  ghost predicate Agree(s: Snapshot) {
    && (forall r <- s.releases :: SameLabels(r.labels, r.pod.labels) && INSTANCE in r.labels && r.labels[INSTANCE] == r.pod.name)
    && (forall r <- s.releases, p <- s.pods :: p.name == r.pod.name ==> SameLabels(p.labels, r.pod.labels) )
  }

  /** What the options ask of a workspace, wherever it is listed. */
  predicate Meets(labels: Labels, name: string, o: Options) {
    && Selected(labels, o) && (o.name != "" ==> name == o.name)
  }

  lemma MeetsAsListed(p: Pod, o: Options)
    requires Meets(p.labels, p.name, o)
    ensures PodMatches(p, o)
    ensures LivePod(p, o) <==> p.described
    ensures InjectedPod(p, o) <==> Selects(p.labels, INJECTED, ["true"]) && p.described
  {
  }

  /** Names in common, case apart, are the first operand's, in its order and spelling. */
  lemma {:induction false} CommonIs(a: seq<string>, b: seq<string>)
    ensures Common(a, b) == Filter(a, (v: string) => exists u <- b :: Lower(u) == Lower(v))
  {
    if a != [] {
      CommonIs(a[1..], b);
    }
  }

  lemma {:induction false} CommonHas(a: seq<string>, b: seq<string>, v: string)
    requires v in a && exists u <- b :: EqualFold(u, v)
    ensures v in Common(a, b)
  {
    if a[0] != v {
      CommonHas(a[1..], b, v);
    }
  }

  ghost predicate Pushes(s: seq<Condition>, field: string, values: Option<seq<string>>) {
    exists c <- s :: c.field == field && PushableValues(c) == values
  }

  /** A pushed restriction is one of the filter's own conditions. */
  lemma {:induction false} PushedFrom(s: seq<Condition>)
    ensures var o := PushAll(s);
            && (o.usernames.Some? ==> Pushes(s, "username", o.usernames))
            && (o.organization != "" ==> Pushes(s, "organization", Some([o.organization])))
            && (o.blueprint != "" ==> Pushes(s, "blueprint", Some([o.blueprint])))
            && (o.name != "" ==> Pushes(s, "name", Some([o.name])))
  {
    if s != [] {
      var init, c := s[..|s| - 1], s[|s| - 1];
      PushedFrom(init);
      OneIs(c);
      forall field, values | Pushes(init, field, values)
        ensures Pushes(s, field, values)
      {
        var d :| d in init && d.field == field && PushableValues(d) == values;
        assert d in s;
      }
      assert c in s;
      assert Pushes(s, c.field, PushableValues(c));
    }
  }

  lemma OneIs(c: Condition)
    ensures One(c) != "" ==> PushableValues(c) == Some([One(c)])
  {
    var v := PushableValues(c);
    if v.Some? && |v.value| == 1 {
      assert v.value == [v.value[0]];
    }
  }

  lemma {:induction false} AllMatch(other: Evaluator, d: Details, f: Filters, i: nat)
    requires Valid(f) && !f.any && i <= |f.conditions| && MatchesFrom(other, d, f, i) == Some(true)
    ensures forall j :: i <= j < |f.conditions| ==> MatchesAt(other, d, f, j)
    decreases |f.conditions| - i
  {
    if i < |f.conditions| {
      assert f.conditions[i] in f.conditions;
      AllMatch(other, d, f, i + 1);
    }
  }

  ghost predicate MatchesAt(other: Evaluator, d: Details, f: Filters, j: nat)
    requires Valid(f) && j < |f.conditions|
  {
    assert f.conditions[j] in f.conditions;
    Matches(other, d, f.conditions[j]) == Some(true)
  }

  /** A condition whose values can be pushed is met by text equal to one of them, case
      apart. */
  lemma PushableMeans(other: Evaluator, d: Details, f: Filters, c: Condition)
    requires Valid(f) && !f.any && c in f.conditions && MatchesFilters(other, d, f) == Some(true)
    requires Pushable(c.field) && PushableValues(c).Some?
    ensures FieldOf(d, c.field) != "" && exists v <- c.values :: EqualFold(v, FieldOf(d, c.field))
  {
    AllMatch(other, d, f, 0);
    var j :| 0 <= j < |f.conditions| && f.conditions[j] == c;
    assert MatchesAt(other, d, f, j);
    if c.op == EQ {
      assert c.values[0] in c.values;
      GlobFoldLiteral(c.values[0], FieldOf(d, c.field));
    }
  }

  /** No user is called nothing. */
  predicate NamesUsers(s: Scope) {
    s.usernames.Some? ==> "" !in s.usernames.value
  }

  /** A restriction to one text that was pushed down is met by what is wanted. */
  lemma WantedMeetsText(other: Evaluator, scope: Scope, f: Filters, d: Details, field: string, text: string)
    requires Valid(f) && !f.any && MatchesFilters(other, d, f) == Some(true) && Pushable(field)
    requires Pushes(f.conditions, field, Some([text]))
    ensures FieldOf(d, field) != "" && EqualFold(text, FieldOf(d, field))
  {
    var c :| c in f.conditions && c.field == field && PushableValues(c) == Some([text]);
    PushableMeans(other, d, f, c);
  }

  lemma WantedMeetsOrganization(other: Evaluator, scope: Scope, f: Filters, d: Details)
    requires Valid(f) && Wanted(other, scope, f, d)
    ensures var o := Narrow(scope, Pushdown(f));
            o.organization != "" ==> d.Label(ORGANIZATION) != "" && EqualFold(d.Label(ORGANIZATION), o.organization)
  {
    var o := Narrow(scope, Pushdown(f));
    PushedFrom(f.conditions);
    if o.organization != "" {
      if scope.organization == "" {
        WantedMeetsText(other, scope, f, d, "organization", o.organization);
      } else {
        assert |Lower(d.Label(ORGANIZATION))| == |Lower(scope.organization)|;
      }
    }
  }

  /** Every workspace that is wanted meets the narrowed options. */
  lemma WantedMeets(other: Evaluator, scope: Scope, f: Filters, d: Details)
    requires Valid(f) && Wanted(other, scope, f, d) && NamesUsers(scope)
    requires OneCase(d.pod.labels, d.pod.name, Narrow(scope, Pushdown(f)))
    ensures Meets(d.pod.labels, d.pod.name, Narrow(scope, Pushdown(f)))
  {
    var p := Pushdown(f);
    PushedFrom(f.conditions);
    WantedMeetsUsernames(other, scope, f, d);
    WantedMeetsOrganization(other, scope, f, d);
    if p.blueprint != "" {
      WantedMeetsText(other, scope, f, d, "blueprint", p.blueprint);
    }
    if p.name != "" {
      WantedMeetsText(other, scope, f, d, "name", p.name);
    }
  }

  lemma WantedMeetsUsernames(other: Evaluator, scope: Scope, f: Filters, d: Details)
    requires Valid(f) && Wanted(other, scope, f, d) && NamesUsers(scope)
    requires var o := Narrow(scope, Pushdown(f));
             o.usernames.Some? ==> forall v <- o.usernames.value :: SameCase(d.pod.labels, USERNAME, v)
    ensures var o := Narrow(scope, Pushdown(f));
            o.usernames.Some? && o.usernames.value != [] ==> Selects(d.pod.labels, USERNAME, o.usernames.value)
  {
    var p, o := Pushdown(f), Narrow(scope, Pushdown(f));
    PushedFrom(f.conditions);
    var name := d.Label(USERNAME);
    if p.usernames.Some? {
      var c :| c in f.conditions && c.field == "username" && PushableValues(c) == p.usernames;
      PushableMeans(other, d, f, c);
      var v :| v in c.values && EqualFold(v, name);
      if scope.usernames.Some? {
        var u :| u in scope.usernames.value && EqualFold(u, name);
        assert EqualFold(u, v);
        CommonHas(p.usernames.value, scope.usernames.value, v);
      }
      assert v in o.usernames.value;
    } else if scope.usernames.Some? {
      var u :| u in scope.usernames.value && EqualFold(u, name);
      assert |Lower(u)| == |u| && |Lower(name)| == |name|;
    }
  }

  /** Every workspace that is wanted has the pushed text just as it was asked for. */
  ghost predicate WantedAllMeet(other: Evaluator, scope: Scope, f: Filters, s: Snapshot)
    requires Valid(f)
  {
    forall d <- Listing(s, EVERYTHING) ::
      Wanted(other, scope, f, d) ==> Meets(d.pod.labels, d.pod.name, Narrow(scope, Pushdown(f)))
  }

  ghost predicate Sound(other: Evaluator, scope: Scope, f: Filters, s: Snapshot) {
    && Valid(f) && NamesUsers(scope) && Agree(s) && WantedAllMeet(other, scope, f, s)
  }

  lemma MapHas<T(!new), U(!new)>(s: seq<T>, f: T -> U)
    ensures forall u :: u in Map(s, f) <==> exists x <- s :: f(x) == u
  {
    forall x | x in s
      ensures f(x) in Map(s, f)
    {
      var i :| 0 <= i < |s| && s[i] == x;
      assert Map(s, f)[i] == f(x);
    }
  }

  /** What a listing holds. */
  lemma ListingHas(s: Snapshot, o: Options, d: Details)
    ensures d in Listing(s, o) <==>
            || (exists p <- Live(s, o) :: Details(p, false) == d)
            || (exists r <- Stopped(s, o) :: Details(r.pod, true) == d)
            || (exists p <- Injected(s, o) :: Details(p, false) == d)
  {
    MapHas(Live(s, o), (p: Pod) => Details(p, false));
    MapHas(Stopped(s, o), (r: Release) => Details(r.pod, true));
    MapHas(Injected(s, o), (p: Pod) => Details(p, false));
  }

  lemma WantedPod(other: Evaluator, scope: Scope, f: Filters, s: Snapshot, p: Pod)
    requires Sound(other, scope, f, s) && Wanted(other, scope, f, Details(p, false))
    ensures var o := Narrow(scope, Pushdown(f));
            && (p in s.pods ==> (LivePod(p, o) <==> LivePod(p, EVERYTHING)))
            && (p in s.foreign ==> (InjectedPod(p, o) <==> InjectedPod(p, EVERYTHING)))
  {
    var o := Narrow(scope, Pushdown(f));
    ListingHas(s, EVERYTHING, Details(p, false));
    if (p in s.pods && LivePod(p, EVERYTHING)) || (p in s.foreign && InjectedPod(p, EVERYTHING)) {
      assert p in Live(s, EVERYTHING) || p in Injected(s, EVERYTHING);
      MeetsAsListed(p, o);
    }
  }

  /** The full listing has every pod with what details need, the injected ones if labelled so,
      and every release that has no such pod of its name, as stopped. */
  lemma EverythingListed(s: Snapshot, d: Details)
    ensures d in Listing(s, EVERYTHING) <==>
            d.pod.described &&
            if d.stopped then
              (exists r <- s.releases :: r.pod == d.pod) && !exists p <- s.pods :: p.described && p.name == d.pod.name
            else
              d.pod in s.pods || (d.pod in s.foreign && INJECTED in d.pod.labels && d.pod.labels[INJECTED] == "true")
  {
    ListingHas(s, EVERYTHING, d);
    assert forall p <- s.pods :: p in Live(s, EVERYTHING) <==> p.described;
    if d.stopped {
      assert NameIn(d.pod.name, Live(s, EVERYTHING)) <==> exists p <- s.pods :: p.described && p.name == d.pod.name;
      if r :| r in s.releases && r.pod == d.pod {
        assert r in Stopped(s, EVERYTHING) <==> r.pod.described && !NameIn(r.pod.name, Live(s, EVERYTHING));
      }
    } else {
      assert Details(d.pod, false) == d;
      assert d.pod in Injected(s, EVERYTHING) <==> d.pod in s.foreign && InjectedPod(d.pod, EVERYTHING);
    }
  }

  /** A release that the narrowed listing would show has a live pod in it if it has one at
      all. */
  lemma LiveAlikeFor(s: Snapshot, o: Options, r: Release)
    requires Agree(s) && r in s.releases && StoppedRelease(r, o)
    ensures NameIn(r.pod.name, Live(s, o)) <==> NameIn(r.pod.name, Live(s, EVERYTHING))
  {
    SelectedAlike(r.labels, r.pod.labels, o);
    forall p | p in s.pods && p.name == r.pod.name
      ensures LivePod(p, o) <==> LivePod(p, EVERYTHING)
    {
      SelectedAlike(p.labels, r.pod.labels, o);
      MeetsAsListed(p, o);
    }
  }

  lemma WantedRelease(other: Evaluator, scope: Scope, f: Filters, s: Snapshot, r: Release)
    requires Sound(other, scope, f, s) && r in s.releases && Wanted(other, scope, f, Details(r.pod, true))
    ensures var o := Narrow(scope, Pushdown(f));
            StoppedRelease(r, o) && !NameIn(r.pod.name, Live(s, o)) <==>
            StoppedRelease(r, EVERYTHING) && !NameIn(r.pod.name, Live(s, EVERYTHING))
  {
    var o := Narrow(scope, Pushdown(f));
    ListingHas(s, EVERYTHING, Details(r.pod, true));
    if StoppedRelease(r, o) {
      LiveAlikeFor(s, o, r);
    } else if StoppedRelease(r, EVERYTHING) && !NameIn(r.pod.name, Live(s, EVERYTHING)) {
      assert r in Stopped(s, EVERYTHING);
      MeetsAsListed(r.pod, o);
      SelectedAlike(r.labels, r.pod.labels, o);
    }
  }

  lemma SelectedAlike(a: Labels, b: Labels, o: Options)
    requires SameLabels(a, b)
    ensures Selected(a, o) <==> Selected(b, o)
  {
  }

  lemma WantedHasUsername(other: Evaluator, scope: Scope, f: Filters, d: Details)
    requires Valid(f) && Wanted(other, scope, f, d) && NamesUsers(scope)
    ensures Narrow(scope, Pushdown(f)).usernames.Some? ==> d.Label(USERNAME) != ""
  {
    PushedFrom(f.conditions);
    if scope.usernames.Some? {
      var u :| u in scope.usernames.value && EqualFold(u, d.Label(USERNAME));
      assert |Lower(u)| == |u| && |Lower(d.Label(USERNAME))| == |d.Label(USERNAME)|;
    } else if Pushdown(f).usernames.Some? {
      var c :| c in f.conditions && c.field == "username" && PushableValues(c) == Pushdown(f).usernames;
      PushableMeans(other, d, f, c);
    }
  }

  lemma ListedMeets(other: Evaluator, scope: Scope, f: Filters, s: Snapshot, d: Details)
    requires Valid(f) && NamesUsers(scope) && Agree(s) && Wanted(other, scope, f, d)
    requires d in Listing(s, Narrow(scope, Pushdown(f)))
    ensures Meets(d.pod.labels, d.pod.name, Narrow(scope, Pushdown(f)))
  {
    var o := Narrow(scope, Pushdown(f));
    ListingHas(s, o, d);
    WantedHasUsername(other, scope, f, d);
    if r :| r in Stopped(s, o) && Details(r.pod, true) == d {
      SelectedAlike(r.labels, r.pod.labels, o);
    }
  }

  /** Over one snapshot, the narrowed listing holds the same wanted workspaces as the listing
      of everything, in the same order, exactly when every wanted workspace has the pushed
      text just as it was asked for, letter case included. */
  lemma PushdownLosesNothingIff(other: Evaluator, scope: Scope, f: Filters, s: Snapshot)
    requires Valid(f) && NamesUsers(scope) && Agree(s)
    ensures Answer(other, scope, f, Listing(s, Narrow(scope, Pushdown(f)))) == Answer(other, scope, f, Listing(s, EVERYTHING))
       <==> WantedAllMeet(other, scope, f, s)
  {
    var o := Narrow(scope, Pushdown(f));
    var wanted := (d: Details) => Wanted(other, scope, f, d);
    if WantedAllMeet(other, scope, f, s) {
      LiveAlike(other, scope, f, s);
      StoppedAlike(other, scope, f, s);
      InjectedAlike(other, scope, f, s);
      ListingParts(s, o, wanted);
      ListingParts(s, EVERYTHING, wanted);
    }
    if Filter(Listing(s, o), wanted) == Filter(Listing(s, EVERYTHING), wanted) {
      forall d | d in Listing(s, EVERYTHING) && Wanted(other, scope, f, d)
        ensures Meets(d.pod.labels, d.pod.name, o)
      {
        assert d in Filter(Listing(s, EVERYTHING), wanted);
        ListedMeets(other, scope, f, s, d);
      }
    }
  }

  /** In particular nothing is lost where stored and queried text differ in case nowhere. */
  lemma PushdownLosesNothing(other: Evaluator, scope: Scope, f: Filters, s: Snapshot)
    requires Valid(f) && NamesUsers(scope) && Agree(s) && OneCaseOverall(s, Narrow(scope, Pushdown(f)))
    ensures Answer(other, scope, f, Listing(s, Narrow(scope, Pushdown(f)))) == Answer(other, scope, f, Listing(s, EVERYTHING))
  {
    forall d | d in Listing(s, EVERYTHING) && Wanted(other, scope, f, d)
      ensures Meets(d.pod.labels, d.pod.name, Narrow(scope, Pushdown(f)))
    {
      ListingHas(s, EVERYTHING, d);
      WantedMeets(other, scope, f, d);
    }
    PushdownLosesNothingIff(other, scope, f, s);
  }

  lemma ListingParts(s: Snapshot, o: Options, wanted: Details -> bool)
    ensures Filter(Listing(s, o), wanted) ==
            Filter(Map(Live(s, o), (p: Pod) => Details(p, false)), wanted)
            + Filter(Map(Stopped(s, o), (r: Release) => Details(r.pod, true)), wanted)
            + Filter(Map(Injected(s, o), (p: Pod) => Details(p, false)), wanted)
  {
    var a := Map(Live(s, o), (p: Pod) => Details(p, false));
    var b := Map(Stopped(s, o), (r: Release) => Details(r.pod, true));
    var c := Map(Injected(s, o), (p: Pod) => Details(p, false));
    FilterConcat(a + b, c, wanted);
    FilterConcat(a, b, wanted);
  }

  lemma LiveAlike(other: Evaluator, scope: Scope, f: Filters, s: Snapshot)
    requires Sound(other, scope, f, s)
    ensures var wanted := (d: Details) => Wanted(other, scope, f, d);
            Filter(Map(Live(s, Narrow(scope, Pushdown(f))), (p: Pod) => Details(p, false)), wanted)
            == Filter(Map(Live(s, EVERYTHING), (p: Pod) => Details(p, false)), wanted)
  {
    var o := Narrow(scope, Pushdown(f));
    var wanted := (d: Details) => Wanted(other, scope, f, d);
    var show := (p: Pod) => Details(p, false);
    var kept := (p: Pod) => Wanted(other, scope, f, Details(p, false));
    FilterMap(Live(s, o), show, wanted, kept);
    FilterMap(Live(s, EVERYTHING), show, wanted, kept);
    forall p | p in s.pods && kept(p)
      ensures LivePod(p, o) <==> LivePod(p, EVERYTHING)
    {
      WantedPod(other, scope, f, s, p);
    }
    FilterAgain(s.pods, (p: Pod) => LivePod(p, o), (p: Pod) => LivePod(p, EVERYTHING), kept);
  }

  lemma StoppedAlike(other: Evaluator, scope: Scope, f: Filters, s: Snapshot)
    requires Sound(other, scope, f, s)
    ensures var wanted := (d: Details) => Wanted(other, scope, f, d);
            Filter(Map(Stopped(s, Narrow(scope, Pushdown(f))), (r: Release) => Details(r.pod, true)), wanted)
            == Filter(Map(Stopped(s, EVERYTHING), (r: Release) => Details(r.pod, true)), wanted)
  {
    var o := Narrow(scope, Pushdown(f));
    var wanted := (d: Details) => Wanted(other, scope, f, d);
    var show := (r: Release) => Details(r.pod, true);
    var kept := (r: Release) => Wanted(other, scope, f, Details(r.pod, true));
    FilterMap(Stopped(s, o), show, wanted, kept);
    FilterMap(Stopped(s, EVERYTHING), show, wanted, kept);
    var narrowed := (r: Release) => StoppedRelease(r, o) && !NameIn(r.pod.name, Live(s, o));
    var all := (r: Release) => StoppedRelease(r, EVERYTHING) && !NameIn(r.pod.name, Live(s, EVERYTHING));
    forall r | r in s.releases && kept(r)
      ensures narrowed(r) <==> all(r)
    {
      WantedRelease(other, scope, f, s, r);
    }
    FilterAgain(s.releases, narrowed, all, kept);
  }

  lemma InjectedAlike(other: Evaluator, scope: Scope, f: Filters, s: Snapshot)
    requires Sound(other, scope, f, s)
    ensures var wanted := (d: Details) => Wanted(other, scope, f, d);
            Filter(Map(Injected(s, Narrow(scope, Pushdown(f))), (p: Pod) => Details(p, false)), wanted)
            == Filter(Map(Injected(s, EVERYTHING), (p: Pod) => Details(p, false)), wanted)
  {
    var o := Narrow(scope, Pushdown(f));
    var wanted := (d: Details) => Wanted(other, scope, f, d);
    var show := (p: Pod) => Details(p, false);
    var kept := (p: Pod) => Wanted(other, scope, f, Details(p, false));
    FilterMap(Injected(s, o), show, wanted, kept);
    FilterMap(Injected(s, EVERYTHING), show, wanted, kept);
    forall p | p in s.foreign && kept(p)
      ensures InjectedPod(p, o) <==> InjectedPod(p, EVERYTHING)
    {
      WantedPod(other, scope, f, s, p);
    }
    FilterAgain(s.foreign, (p: Pod) => InjectedPod(p, o), (p: Pod) => InjectedPod(p, EVERYTHING), kept);
  }

  /** Listing by a label in another case than it is stored in loses the workspace. */
  lemma OtherCaseIsLost(other: Evaluator) returns (p: Pod, f: Filters)
    ensures Valid(f) && Wanted(other, Scope("", None), f, Details(p, false))
    ensures LivePod(p, EVERYTHING) && !LivePod(p, Narrow(Scope("", None), Pushdown(f)))
  {
    var stored, asked := "Bob", "bob";
    p := Pod("w", map[USERNAME := stored], true);
    var c := Condition("username", EQ, [asked]);
    f := Filters(false, [c]);
    assert asked[0] != stored[0];
    assert NoWildcard(asked);
    GlobFoldLiteral(asked, stored);
    var d := Details(p, false);
    assert FieldOf(d, c.field) == stored;
    assert Matches(other, d, c) == Some(true);
    assert MatchesFrom(other, d, f, 1) == Some(true);
    assert PushableValues(c) == Some([asked]);
    assert f.conditions[..0] == [];
    assert PushAll([c]) == Push(EVERYTHING, c);
  }

  // ---- what the conditions mean

  function Scoped(s: Scope, listing: seq<Details>): seq<Details> {
    Filter(listing, (d: Details) => InScope(s, d))
  }

  function Single(field: string, op: Operator, values: seq<string>): Filters {
    Filters(false, [Condition(field, op, values)])
  }

  /** The field has a text that the pattern describes, whatever the case. */
  ghost predicate Describes(pattern: string, d: Details, field: string) {
    FieldOf(d, field) != "" && GlobFold(pattern, FieldOf(d, field))
  }

  lemma SingleMatches(other: Evaluator, d: Details, c: Condition, any: bool)
    requires Valid(Filters(any, [c]))
    ensures MatchesFilters(other, d, Filters(any, [c])) == Some(true) <==> Matches(other, d, c) == Some(true)
  {
    var f := Filters(any, [c]);
    assert f.conditions[0] == c && c in f.conditions;
    assert MatchesFrom(other, d, f, 1) == Some(!any);
  }

  lemma AnswerWithin(other: Evaluator, s: Scope, f: Filters, listing: seq<Details>, holds: Details -> bool)
    requires Valid(f) && forall d <- listing :: holds(d) <==> MatchesFilters(other, d, f) == Some(true)
    ensures Answer(other, s, f, listing) == Filter(Scoped(s, listing), holds)
  {
    FilterBoth(listing, (d: Details) => InScope(s, d), holds, (d: Details) => Wanted(other, s, f, d));
  }

  /** An equality finds what the pattern describes, an inequality the rest of what is in
      scope, absent fields included: together they are all of it. */
  lemma EqualOrNot(other: Evaluator, s: Scope, field: string, pattern: string, listing: seq<Details>)
    requires Pushable(field)
    ensures var eq, ne := Answer(other, s, Single(field, EQ, [pattern]), listing), Answer(other, s, Single(field, NE, [pattern]), listing);
            && eq == Filter(Scoped(s, listing), (d: Details) => Describes(pattern, d, field))
            && ne == Filter(Scoped(s, listing), (d: Details) => !Describes(pattern, d, field))
            && multiset(eq) + multiset(ne) == multiset(Scoped(s, listing))
  {
    var eq, ne := Condition(field, EQ, [pattern]), Condition(field, NE, [pattern]);
    forall d: Details
      ensures MatchesFilters(other, d, Filters(false, [eq])) == Some(true) <==> Describes(pattern, d, field)
      ensures MatchesFilters(other, d, Filters(false, [ne])) == Some(true) <==> !Describes(pattern, d, field)
    {
      SingleMatches(other, d, eq, false);
      SingleMatches(other, d, ne, false);
    }
    AnswerWithin(other, s, Filters(false, [eq]), listing, (d: Details) => Describes(pattern, d, field));
    AnswerWithin(other, s, Filters(false, [ne]), listing, (d: Details) => !Describes(pattern, d, field));
    FilterSplits(Scoped(s, listing), (d: Details) => Describes(pattern, d, field), (d: Details) => !Describes(pattern, d, field));
  }

  /** Whether the field is there. */
  lemma ExistsOrNot(other: Evaluator, s: Scope, field: string, listing: seq<Details>)
    requires Pushable(field)
    ensures var there, absent := Answer(other, s, Single(field, EXISTS, ["true"]), listing), Answer(other, s, Single(field, EXISTS, ["false"]), listing);
            && there == Filter(Scoped(s, listing), (d: Details) => FieldOf(d, field) != "")
            && absent == Filter(Scoped(s, listing), (d: Details) => FieldOf(d, field) == "")
            && multiset(there) + multiset(absent) == multiset(Scoped(s, listing))
            && Answer(other, s, Single(field, EXISTS, []), listing) == there
  {
    var there, absent, none := Condition(field, EXISTS, ["true"]), Condition(field, EXISTS, ["false"]), Condition(field, EXISTS, []);
    assert "false"[0] != "true"[0];
    forall d: Details
      ensures MatchesFilters(other, d, Filters(false, [there])) == Some(true) <==> FieldOf(d, field) != ""
      ensures MatchesFilters(other, d, Filters(false, [none])) == Some(true) <==> FieldOf(d, field) != ""
      ensures MatchesFilters(other, d, Filters(false, [absent])) == Some(true) <==> FieldOf(d, field) == ""
    {
      SingleMatches(other, d, there, false);
      SingleMatches(other, d, none, false);
      SingleMatches(other, d, absent, false);
    }
    AnswerWithin(other, s, Filters(false, [there]), listing, (d: Details) => FieldOf(d, field) != "");
    AnswerWithin(other, s, Filters(false, [none]), listing, (d: Details) => FieldOf(d, field) != "");
    AnswerWithin(other, s, Filters(false, [absent]), listing, (d: Details) => FieldOf(d, field) == "");
    FilterSplits(Scoped(s, listing), (d: Details) => FieldOf(d, field) != "", (d: Details) => FieldOf(d, field) == "");
  }

  /** A field is one of several values if it equals one of them, case apart. */
  lemma OneOf(other: Evaluator, s: Scope, field: string, values: seq<string>, listing: seq<Details>)
    requires Pushable(field)
    ensures Answer(other, s, Single(field, IN, values), listing)
            == Filter(Scoped(s, listing),
                      (d: Details) => FieldOf(d, field) != "" && exists v <- values :: EqualFold(v, FieldOf(d, field)))
  {
    var c := Condition(field, IN, values);
    var holds := (d: Details) => FieldOf(d, field) != "" && exists v <- values :: EqualFold(v, FieldOf(d, field));
    forall d: Details
      ensures MatchesFilters(other, d, Filters(false, [c])) == Some(true) <==> holds(d)
    {
      SingleMatches(other, d, c, false);
    }
    AnswerWithin(other, s, Filters(false, [c]), listing, holds);
  }

  ghost predicate Found(other: Evaluator, s: Scope, c: Condition, listing: seq<Details>, d: Details)
    requires c.op == EQ || c.op == NE ==> |c.values| == 1
  {
    d in Answer(other, s, Filters(false, [c]), listing)
  }

  lemma FoundIff(other: Evaluator, s: Scope, c: Condition, listing: seq<Details>, d: Details)
    requires (c.op == EQ || c.op == NE ==> |c.values| == 1) && d in listing
    ensures Found(other, s, c, listing, d) <==> InScope(s, d) && Matches(other, d, c) == Some(true)
  {
    SingleMatches(other, d, c, false);
  }

  lemma {:induction false} AllOrAny(other: Evaluator, d: Details, f: Filters, i: nat)
    requires Valid(f) && i <= |f.conditions|
    ensures !f.any ==> (MatchesFrom(other, d, f, i) == Some(true) <==> forall j :: i <= j < |f.conditions| ==> MatchesAt(other, d, f, j))
    ensures f.any && MatchesFrom(other, d, f, i).Some? ==>
              (MatchesFrom(other, d, f, i) == Some(true) <==> exists j :: i <= j < |f.conditions| && MatchesAt(other, d, f, j))
    decreases |f.conditions| - i
  {
    if i < |f.conditions| {
      assert f.conditions[i] in f.conditions;
      AllOrAny(other, d, f, i + 1);
      assert MatchesAt(other, d, f, i) <==> Matches(other, d, f.conditions[i]) == Some(true);
    }
  }

  /** All-of finds what every condition finds alone, any-of what some condition does; in the
      order of the listing. */
  lemma AllIsIntersectionAnyIsUnion(other: Evaluator, s: Scope, f: Filters, listing: seq<Details>)
    requires Valid(f) && (f.any ==> f.conditions != [] && Evaluates(other, s, f, listing))
    ensures Answer(other, s, f, listing) ==
            Filter(Scoped(s, listing),
                   (d: Details) => if f.any then exists c <- f.conditions :: Found(other, s, c, listing, d)
                                   else forall c <- f.conditions :: Found(other, s, c, listing, d))
  {
    var inScope, holds, wanted := (d: Details) => InScope(s, d),
        (d: Details) => if f.any then exists c <- f.conditions :: Found(other, s, c, listing, d)
                        else forall c <- f.conditions :: Found(other, s, c, listing, d),
        (d: Details) => Wanted(other, s, f, d);
    forall d | d in listing
      ensures wanted(d) <==> inScope(d) && holds(d)
    {
      if InScope(s, d) {
        AllOrAny(other, d, f, 0);
        forall c | c in f.conditions
          ensures Found(other, s, c, listing, d) <==> Matches(other, d, c) == Some(true)
        {
          FoundIff(other, s, c, listing, d);
        }
        forall j | 0 <= j < |f.conditions|
          ensures MatchesAt(other, d, f, j) <==> Found(other, s, f.conditions[j], listing, d)
        {
          assert f.conditions[j] in f.conditions;
        }
      }
    }
    FilterBoth(listing, inScope, holds, wanted);
  }

  // ---- the query

  datatype QueryError = InvalidParameters

  method MatchesCondition(other: Evaluator, d: Details, c: Condition) returns (r: Option<bool>)
    requires c.op == EQ || c.op == NE ==> |c.values| == 1
    ensures r == Matches(other, d, c)
  {
    if !Pushable(c.field) {
      return other(d, c);
    }
    var value := FieldOf(d, c.field);
    var present := value != "";
    match c.op {
      case EXISTS =>
        var want := true;
        if |c.values| == 1 {
          want := c.values[0] == "true";
        }
        r := Some(present == want);
      case EQ | NE =>
        var matched := false;
        if present {
          matched := GlobMatch(c.values[0], value);
        }
        r := Some(if c.op == NE then !matched else matched);
      case IN =>
        if !present {
          return Some(false);
        }
        for i := 0 to |c.values|
          invariant forall v <- c.values[..i] :: !EqualFold(v, value)
        {
          if EqualFold(c.values[i], value) {
            return Some(true);
          }
        }
        assert c.values[..|c.values|] == c.values;
        r := Some(false);
      case Ordering =>
        if !present {
          return Some(false);
        }
        r := None;
    }
  }

  method EvaluateFilters(other: Evaluator, d: Details, f: Filters) returns (r: Option<bool>)
    requires Valid(f)
    ensures r == MatchesFilters(other, d, f)
  {
    if |f.conditions| == 0 {
      return Some(true);
    }
    for i := 0 to |f.conditions|
      invariant MatchesFilters(other, d, f) == MatchesFrom(other, d, f, i)
    {
      assert f.conditions[i] in f.conditions;
      var matched := MatchesCondition(other, d, f.conditions[i]);
      if matched.None? {
        return None;
      }
      if f.any && matched.value {
        return Some(true);
      }
      if !f.any && !matched.value {
        return Some(false);
      }
    }
    r := Some(!f.any);
  }

  /** Every value put into a label selector can stand there. */
  predicate Parses(valid: string -> bool, o: Options) {
    && (o.usernames.Some? ==> forall u <- o.usernames.value :: valid(u))
    && (o.organization != "" ==> valid(o.organization))
    && (o.blueprint != "" ==> valid(o.blueprint))
    && (o.name != "" ==> valid(o.name))
  }

  ghost predicate Evaluates(other: Evaluator, scope: Scope, f: Filters, listing: seq<Details>)
    requires Valid(f)
  {
    forall d <- listing :: InScope(scope, d) ==> MatchesFilters(other, d, f).Some?
  }

  method QueryWorkspaces(other: Evaluator, valid: string -> bool, scope: Scope, f: Filters, s: Snapshot)
      returns (r: Result<seq<Details>, QueryError>)
    requires Valid(f)
    ensures var o := Narrow(scope, Pushdown(f));
            && (r.Ok? ==> r.value == Answer(other, scope, f, Listing(s, o)))
            && (Parses(valid, o) && Evaluates(other, scope, f, Listing(s, o)) ==> r.Ok?)
  {
    if scope.usernames.Some? && |scope.usernames.value| == 0 {
      NobodyInScope(other, scope, f, Listing(s, Narrow(scope, Pushdown(f))));
      return Ok([]);
    }
    var o := PushdownOptionsFromPayload(f);
    o := NarrowOptions(scope, o);
    if !Parses(valid, o) {
      return Err(InvalidParameters);
    }
    var listing := GetWorkspaces(s, o);
    var filtered := FilterListing(other, scope, f, listing);
    r := if filtered.Some? then Ok(filtered.value) else Err(InvalidParameters);
  }

  method FilterListing(other: Evaluator, scope: Scope, f: Filters, listing: seq<Details>) returns (r: Option<seq<Details>>)
    requires Valid(f)
    ensures r.Some? <==> Evaluates(other, scope, f, listing)
    ensures r.Some? ==> r.value == Answer(other, scope, f, listing)
  {
    ghost var wanted := (d: Details) => Wanted(other, scope, f, d);
    var filtered: seq<Details> := [];
    for i := 0 to |listing|
      invariant filtered == Filter(listing[..i], wanted)
      invariant Evaluates(other, scope, f, listing[..i])
    {
      FilterAppend(listing[..i], listing[i], wanted);
      assert listing[..i + 1] == listing[..i] + [listing[i]];
      if !InScope(scope, listing[i]) {
        continue;
      }
      var matched := EvaluateFilters(other, listing[i], f);
      if matched.None? {
        assert listing[i] in listing;
        return None;
      }
      if matched.value {
        filtered := filtered + [listing[i]];
      }
    }
    assert listing[..|listing|] == listing;
    r := Some(filtered);
  }

  method NarrowOptions(s: Scope, o: Options) returns (r: Options)
    ensures r == Narrow(s, o)
  {
    r := o;
    if s.organization != "" {
      r := r.(organization := s.organization);
    }
    if s.usernames.Some? {
      var usernames := IntersectUsernames(r.usernames, s.usernames);
      r := r.(usernames := usernames);
    }
  }

  lemma {:induction false} NobodyInScope(other: Evaluator, scope: Scope, f: Filters, listing: seq<Details>)
    requires Valid(f) && scope.usernames == Some([])
    ensures Answer(other, scope, f, listing) == []
  {
    if listing != [] {
      NobodyInScope(other, scope, f, listing[1..]);
    }
  }
}
