/** Pod listings served from informers (internal/helm/informer.go). */
module Informers {
  import opened Prelude
  import opened Sequences

  const INJECTED := "k8shell.io/injected"

  type Labels = map<string, string>

  datatype Pod = Pod(namespace: string, name: string, labels: Labels)

  /** Equality is membership in one value; a numeric comparison is kept as a test. */
  datatype Test = In(values: set<string>) | NotIn(values: set<string>) | Exists | Absent | Numeric(holds: string -> bool)

  datatype Requirement = Requirement(key: string, test: Test)

  type Selector = seq<Requirement>

  predicate Meets(r: Requirement, labels: Labels) {
    match r.test
    case In(values) => r.key in labels && labels[r.key] in values
    case NotIn(values) => r.key !in labels || labels[r.key] !in values
    case Exists => r.key in labels
    case Absent => r.key !in labels
    case Numeric(holds) => r.key in labels && holds(labels[r.key])
  }

  predicate Matches(sel: Selector, labels: Labels) {
    forall i :: 0 <= i < |sel| ==> Meets(sel[i], labels)
  }

  /** What an informer is asked to hold: a namespace, "" for all, and whether injected pods
      alone. */
  datatype Scope = Scope(namespace: string, injectedOnly: bool)

  datatype Informer = Informer(scope: Scope, synced: bool, store: seq<Pod>)

  predicate Covers(s: Scope, p: Pod) {
    && (s.namespace == "" || p.namespace == s.namespace)
    && (s.injectedOnly ==> INJECTED in p.labels && p.labels[INJECTED] == "true")
  }

  /** Once synced, an informer's store mirrors its own list, in any order. */
  ghost predicate Mirrors(i: Informer, cluster: seq<Pod>) {
    i.synced ==> multiset(i.store) == multiset(Filter(cluster, (p: Pod) => Covers(i.scope, p)))
  }

  /** The API server's answer. */
  function Direct(cluster: seq<Pod>, namespace: string, sel: Selector): seq<Pod> {
    Filter(cluster, (p: Pod) => (namespace == "" || p.namespace == namespace) && Matches(sel, p.labels))
  }

  /** Which injected-pods informers there are. */
  function InjectedScopes(namespaces: seq<string>): map<string, Scope> {
    if "*" in namespaces then map["" := Scope("", true)]
    else map ns | ns in namespaces :: Scope(ns, true)
  }

  method StartInjectedInformers(namespaces: seq<string>) returns (scopes: map<string, Scope>)
    ensures scopes == InjectedScopes(namespaces)
  {
    scopes := map[];
    for i := 0 to |namespaces|
      invariant "*" !in namespaces[..i]
      invariant scopes == map ns | ns in namespaces[..i] :: Scope(ns, true)
    {
      var ns := namespaces[i];
      if ns == "*" {
        return map["" := Scope("", true)];
      }
      scopes := scopes[ns := Scope(ns, true)];
      assert namespaces[..i + 1] == namespaces[..i] + [ns];
    }
    assert namespaces[..|namespaces|] == namespaces;
  }

  predicate DemandsInjected(r: Requirement) {
    r.key == INJECTED && r.test.In? && r.test.values == {"true"}
  }

  method RequiresInjected(sel: Selector) returns (required: bool)
    ensures required <==> exists i :: 0 <= i < |sel| && DemandsInjected(sel[i])
  {
    for i := 0 to |sel|
      invariant forall j :: 0 <= j < i ==> !DemandsInjected(sel[j])
    {
      if sel[i].key != INJECTED {
        continue;
      }
      if sel[i].test.In? {
        if |sel[i].test.values| == 1 && "true" in sel[i].test.values {
          OneValue(sel[i].test.values);
          assert DemandsInjected(sel[i]);
          return true;
        }
      }
    }
    required := false;
  }

  lemma OneValue(values: set<string>)
    requires |values| == 1 && "true" in values
    ensures values == {"true"}
  {
    assert |values - {"true"}| == 0;
    assert values == {"true"} + (values - {"true"});
  }

  class WorkspaceInformers {
    const targetNamespace: string
    const targetPods: Informer
    const injectedPods: map<string, Informer>

    constructor (targetNamespace: string, targetPods: Informer, injectedPods: map<string, Informer>)
      ensures this.targetNamespace == targetNamespace && this.targetPods == targetPods && this.injectedPods == injectedPods
    {
      this.targetNamespace := targetNamespace;
      this.targetPods := targetPods;
      this.injectedPods := injectedPods;
    }

    /** As started. */
    ghost predicate Valid(cluster: seq<Pod>) {
      && targetPods.scope == Scope(targetNamespace, false) && Mirrors(targetPods, cluster)
      && forall ns <- injectedPods :: injectedPods[ns].scope == Scope(ns, true) && Mirrors(injectedPods[ns], cluster)
    }

    /** The informer that covers a listing, if any: an injected-pods informer holds nothing
        else, so the selector must demand injected pods. */
    function Serving(namespace: string, sel: Selector): Option<Informer> {
      if namespace == targetNamespace then Some(targetPods)
      else if !(exists i :: 0 <= i < |sel| && DemandsInjected(sel[i])) then None
      else if namespace in injectedPods then Some(injectedPods[namespace])
      else if "" in injectedPods then Some(injectedPods[""])
      else None
    }

    /** Whenever the informers answer, the answer is the API server's, in some order. */
    method ListPods(namespace: string, sel: Selector, ghost cluster: seq<Pod>) returns (r: Option<seq<Pod>>)
      requires Valid(cluster)
      ensures r.Some? ==> multiset(r.value) == multiset(Direct(cluster, namespace, sel))
      ensures r.Some? <==> Serving(namespace, sel).Some? && Serving(namespace, sel).value.synced
    {
      var inf: Option<Informer> := None;
      var required := RequiresInjected(sel);
      if namespace == targetNamespace {
        inf := Some(targetPods);
      } else if required {
        if namespace in injectedPods {
          inf := Some(injectedPods[namespace]);
        } else if "" in injectedPods {
          inf := Some(injectedPods[""]);
        }
      }
      if inf.None? || !inf.value.synced {
        return None;
      }
      var objs := inf.value.store;
      if namespace != "" {
        objs := ByNamespace(inf.value.store, namespace);
      }
      var pods: seq<Pod> := [];
      ghost var keep := (p: Pod) => Matches(sel, p.labels);
      for i := 0 to |objs|
        invariant pods == Filter(objs[..i], keep)
      {
        FilterAppend(objs[..i], objs[i], keep);
        assert objs[..i + 1] == objs[..i] + [objs[i]];
        if Matches(sel, objs[i].labels) {
          pods := pods + [objs[i]];
        }
      }
      assert objs[..|objs|] == objs;
      ServedIsDirect(inf.value, cluster, namespace, sel);
      r := Some(pods);
    }
  }

  method ByNamespace(s: seq<Pod>, namespace: string) returns (out: seq<Pod>)
    ensures out == Filter(s, (p: Pod) => p.namespace == namespace)
  {
    out := [];
    ghost var keep := (p: Pod) => p.namespace == namespace;
    for i := 0 to |s|
      invariant out == Filter(s[..i], keep)
    {
      FilterAppend(s[..i], s[i], keep);
      assert s[..i + 1] == s[..i] + [s[i]];
      if s[i].namespace == namespace {
        out := out + [s[i]];
      }
    }
    assert s[..|s|] == s;
  }

  /** A selector that demands injected pods matches no others. */
  lemma MatchesInjectedAlone(sel: Selector, i: nat, labels: Labels)
    requires i < |sel| && DemandsInjected(sel[i]) && Matches(sel, labels)
    ensures INJECTED in labels && labels[INJECTED] == "true"
  {
    assert Meets(sel[i], labels);
  }

  lemma ServedIsDirect(inf: Informer, cluster: seq<Pod>, namespace: string, sel: Selector)
    requires inf.synced && Mirrors(inf, cluster)
    requires inf.scope.namespace == "" || inf.scope.namespace == namespace
    requires inf.scope.injectedOnly ==> exists i :: 0 <= i < |sel| && DemandsInjected(sel[i])
    ensures var objs := if namespace == "" then inf.store else Filter(inf.store, (p: Pod) => p.namespace == namespace);
            multiset(Filter(objs, (p: Pod) => Matches(sel, p.labels))) == multiset(Direct(cluster, namespace, sel))
  {
    var covered := (p: Pod) => Covers(inf.scope, p);
    var within := (p: Pod) => p.namespace == namespace;
    var matching := (p: Pod) => Matches(sel, p.labels);
    var direct := (p: Pod) => (namespace == "" || p.namespace == namespace) && Matches(sel, p.labels);
    var objs := if namespace == "" then inf.store else Filter(inf.store, within);
    forall p
      ensures multiset(Filter(objs, matching))[p] == multiset(Filter(cluster, direct))[p]
    {
      FilterCounts(objs, matching, p);
      FilterCounts(inf.store, within, p);
      FilterCounts(cluster, covered, p);
      FilterCounts(cluster, direct, p);
      if matching(p) && inf.scope.injectedOnly {
        var i :| 0 <= i < |sel| && DemandsInjected(sel[i]);
        MatchesInjectedAlone(sel, i, p.labels);
      }
    }
  }
}
