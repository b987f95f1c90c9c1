/** Template inheritance over a whole set of blueprints
    (internal/blueprint/resolve.go:15-100). */
module Inheritance {
  import opened Prelude
  import opened Yaml
  import opened Merge
  import opened Revision

  /** own, chain and revision are filled in by resolution. */
  datatype Blueprint = Blueprint(name: string, org: string, template: string, node: Node,
                                 own: Option<Node>, chain: seq<string>, revision: Option<string>)

  type Blueprints = map<string, Blueprint>

  datatype ResolveError =
    | Circular(key: string)
    | NotFound(key: string)
    | MissingTemplate(template: string, key: string)
    | MergeFailed(key: string)

  function OrgKey(org: string, name: string): string {
    org + "/" + name
  }

  /** A blueprint of an organization looks for its template there first. */
  function ParentKey(m: Blueprints, bp: Blueprint): string {
    if bp.org != "" && OrgKey(bp.org, bp.template) in m then OrgKey(bp.org, bp.template) else bp.template
  }

  function WithRoot(bp: Blueprint, key: string): Blueprint {
    bp.(own := Some(bp.node), chain := if bp.chain == [] then [key] else bp.chain,
        revision := Some(Stream(Some(bp.node))))
  }

  function WithParent(parent: Blueprint, bp: Blueprint, key: string): Blueprint {
    var merged := Merged(parent.node, bp.node, "");
    bp.(node := merged, own := Some(bp.node), chain := parent.chain + [key], revision := Some(Stream(Some(merged))))
  }

  function Resolve(m: Blueprints, key: string, visited: set<string>): Result<Blueprint, ResolveError>
    decreases m.Keys - visited
  {
    if key in visited then Err(Circular(key))
    else if key !in m then Err(NotFound(key))
    else
      var bp := m[key];
      if bp.template == "" then Ok(WithRoot(bp, key))
      else
        assert m.Keys - (visited + {key}) < m.Keys - visited by {
          assert key in m.Keys - visited && key !in m.Keys - (visited + {key});
        }
        var parent := Resolve(m, ParentKey(m, bp), visited + {key});
        if parent.Err? then
          Err(if parent.error.NotFound? then MissingTemplate(bp.template, key) else parent.error)
        else if !Mergeable(parent.value.node, bp.node, "") then Err(MergeFailed(key))
        else Ok(WithParent(parent.value, bp, key))
  }

  // ---- the code

  class BlueprintManager {
    var rawBlueprints: Blueprints

    constructor (rawBlueprints: Blueprints)
      ensures this.rawBlueprints == rawBlueprints
    {
      this.rawBlueprints := rawBlueprints;
    }

    method ResolveRawTemplate(key: string, visited: set<string>) returns (r: Result<Blueprint, ResolveError>)
      ensures r == Resolve(rawBlueprints, key, visited)
      decreases rawBlueprints.Keys - visited
    {
      if key in visited {
        return Err(Circular(key));
      }
      if key !in rawBlueprints {
        return Err(NotFound(key));
      }
      var bp := rawBlueprints[key];
      if bp.template == "" {
        return Ok(WithRoot(bp, key));
      }
      var parentKey := bp.template;
      if bp.org != "" {
        if OrgKey(bp.org, bp.template) in rawBlueprints {
          parentKey := OrgKey(bp.org, bp.template);
        }
      }
      assert key in rawBlueprints.Keys - visited && key !in rawBlueprints.Keys - (visited + {key});
      var parent := ResolveRawTemplate(parentKey, visited + {key});
      if parent.Err? {
        if parent.error.NotFound? {
          return Err(MissingTemplate(bp.template, key));
        }
        return Err(parent.error);
      }
      var merged := MergeYAMLNodes(parent.value.node, bp.node);
      if merged.Err? {
        return Err(MergeFailed(key));
      }
      r := Ok(bp.(node := merged.value, own := Some(bp.node), chain := parent.value.chain + [key],
                  revision := Some(Stream(Some(merged.value)))));
    }

    /** The keys come in any order. Either every blueprint resolves and each is replaced by
        what it resolves to, or nothing changes and the error is that of some blueprint. */
    method ResolveInheritance() returns (r: Result<(), ResolveError>)
      modifies this
      ensures r.Ok? <==> AllResolve(old(rawBlueprints))
      ensures r.Ok? ==> rawBlueprints == Resolved(old(rawBlueprints))
      ensures r.Err? ==> rawBlueprints == old(rawBlueprints)
                         && exists key <- rawBlueprints :: Resolve(rawBlueprints, key, {}) == Err(r.error)
    {
      var resolved: Blueprints := map[];
      var todo := rawBlueprints.Keys;
      while todo != {}
        invariant todo <= rawBlueprints.Keys
        invariant resolved.Keys == rawBlueprints.Keys - todo
        invariant forall key <- resolved :: Resolve(rawBlueprints, key, {}) == Ok(resolved[key])
        invariant rawBlueprints == old(rawBlueprints)
      {
        var key :| key in todo;
        todo := todo - {key};
        var bp := ResolveRawTemplate(key, {});
        if bp.Err? {
          return Err(bp.error);
        }
        resolved := resolved[key := bp.value];
      }
      rawBlueprints := resolved;
      r := Ok(());
    }
  }

  ghost predicate AllResolve(m: Blueprints) {
    forall key <- m :: Resolve(m, key, {}).Ok?
  }

  ghost function Resolved(m: Blueprints): Blueprints
    requires AllResolve(m)
  {
    map key | key in m :: Resolve(m, key, {}).value
  }

  // ---- what resolution means

  /** Every key of path but the first is the parent of the one before it. */
  ghost predicate Walk(m: Blueprints, path: seq<string>) {
    && path != []
    && (forall k <- path :: k in m)
    && forall i :: 0 <= i < |path| - 1 ==> Linked(m, path, i)
  }

  predicate Linked(m: Blueprints, path: seq<string>, i: nat)
    requires i + 1 < |path| && path[i] in m
  {
    m[path[i]].template != "" && ParentKey(m, m[path[i]]) == path[i + 1]
  }

  /** The keys from a blueprint up to a root, one without a template. */
  ghost predicate Chain(m: Blueprints, path: seq<string>) {
    Walk(m, path) && m[path[|path| - 1]].template == ""
  }

  /** Root first, each blueprint is merged into what those above it give. */
  function Fold(m: Blueprints, path: seq<string>): Node
    requires path != [] && forall k <- path :: k in m
  {
    if |path| == 1 then m[path[0]].node else Merged(Fold(m, path[1..]), m[path[0]].node, "")
  }

  predicate FoldSucceeds(m: Blueprints, path: seq<string>)
    requires path != [] && forall k <- path :: k in m
  {
    |path| == 1 || (FoldSucceeds(m, path[1..]) && Mergeable(Fold(m, path[1..]), m[path[0]].node, ""))
  }

  function Reverse(s: seq<string>): (r: seq<string>)
    ensures |r| == |s| && forall i :: 0 <= i < |s| ==> r[i] == s[|s| - 1 - i]
  {
    if s == [] then [] else Reverse(s[1..]) + [s[0]]
  }

  /** Blueprints as they come from loading. */
  ghost predicate Unresolved(m: Blueprints) {
    forall key <- m :: m[key].chain == []
  }

  ghost predicate Gives(m: Blueprints, path: seq<string>, bp: Blueprint)
    requires Chain(m, path)
  {
    bp == m[path[0]].(node := Fold(m, path), own := Some(m[path[0]].node), chain := Reverse(path),
                      revision := Some(Stream(Some(Fold(m, path)))))
  }

  lemma WalkTail(m: Blueprints, path: seq<string>)
    requires Walk(m, path) && |path| > 1
    ensures Walk(m, path[1..])
  {
    forall i | 0 <= i < |path[1..]| - 1
      ensures Linked(m, path[1..], i)
    {
      assert Linked(m, path, i + 1);
    }
  }

  /** From one key there is one way up. */
  lemma {:induction false} ChainUnique(m: Blueprints, p: seq<string>, q: seq<string>)
    requires Chain(m, p) && Chain(m, q) && p[0] == q[0]
    ensures p == q
  {
    assert |p| > 1 ==> Linked(m, p, 0);
    assert |q| > 1 ==> Linked(m, q, 0);
    if |p| > 1 && |q| > 1 {
      WalkTail(m, p);
      WalkTail(m, q);
      ChainUnique(m, p[1..], q[1..]);
      assert p == [p[0]] + p[1..] && q == [q[0]] + q[1..];
    }
  }

  lemma WalkSuffix(m: Blueprints, p: seq<string>, i: nat)
    requires Walk(m, p) && i < |p|
    ensures Walk(m, p[i..])
  {
    var q := p[i..];
    forall j | 0 <= j < |q| - 1
      ensures Linked(m, q, j)
    {
      assert Linked(m, p, i + j);
    }
  }

  /** A way up to a root comes by no key twice. */
  lemma ChainIsDistinct(m: Blueprints, p: seq<string>)
    requires Chain(m, p)
    ensures Distinct(p)
  {
    forall i, j | 0 <= i < j < |p|
      ensures p[i] != p[j]
    {
      if p[i] == p[j] {
        WalkSuffix(m, p, i);
        WalkSuffix(m, p, j);
        ChainUnique(m, p[i..], p[j..]);
        assert false;
      }
    }
  }

  lemma {:induction false} ResolveChain(m: Blueprints, visited: set<string>, path: seq<string>)
    requires Unresolved(m) && Chain(m, path) && Distinct(path) && forall k <- path :: k !in visited
    ensures var r := Resolve(m, path[0], visited);
            && (r.Ok? <==> FoldSucceeds(m, path))
            && (r.Ok? ==> Gives(m, path, r.value))
            && (r.Err? ==> r.error.MergeFailed?)
    decreases |path|
  {
    assert path[0] in path;
    if |path| > 1 {
      var rest := path[1..];
      assert Linked(m, path, 0);
      WalkTail(m, path);
      TailUnvisited(path, visited);
      ResolveChain(m, visited + {path[0]}, rest);
      ResolveStep(m, path[0], visited);
    }
  }

  lemma TailUnvisited(path: seq<string>, visited: set<string>)
    requires |path| > 1 && Distinct(path) && forall k <- path :: k !in visited
    ensures Distinct(path[1..]) && forall k <- path[1..] :: k !in visited + {path[0]}
  {
    forall k | k in path[1..]
      ensures k !in visited + {path[0]}
    {
      var i :| 0 <= i < |path[1..]| && path[1..][i] == k;
      assert path[i + 1] == k;
    }
  }

  /** One link, when the parent's resolution is known. */
  lemma ResolveStep(m: Blueprints, key: string, visited: set<string>)
    requires key in m && key !in visited && m[key].template != ""
    ensures var bp := m[key];
            var parent := Resolve(m, ParentKey(m, bp), visited + {key});
            Resolve(m, key, visited) ==
              if parent.Err? then
                Err(if parent.error.NotFound? then MissingTemplate(bp.template, key) else parent.error)
              else if Mergeable(parent.value.node, bp.node, "") then Ok(WithParent(parent.value, bp, key))
              else Err(MergeFailed(key))
  {
    assert key in m.Keys - visited && key !in m.Keys - (visited + {key});
  }

  /** Where a failed resolution stopped on its way up. */
  lemma {:induction false} ResolveFinds(m: Blueprints, key: string, visited: set<string>) returns (path: seq<string>)
    requires key in m && key !in visited
    ensures Walk(m, path) && path[0] == key && Distinct(path) && forall k <- path :: k !in visited
    ensures var last := path[|path| - 1];
            var r := Resolve(m, key, visited);
            || m[last].template == ""
            || (ParentKey(m, m[last]) !in m && ParentKey(m, m[last]) !in visited && ParentKey(m, m[last]) !in path
                && r == Err(MissingTemplate(m[last].template, last)))
            || ((ParentKey(m, m[last]) in visited || ParentKey(m, m[last]) in path) && r == Err(Circular(ParentKey(m, m[last]))))
    decreases m.Keys - visited
  {
    path := [key];
    var bp := m[key];
    if bp.template != "" {
      var p := ParentKey(m, bp);
      assert key in m.Keys - visited && key !in m.Keys - (visited + {key});
      if p in m && p !in visited + {key} {
        var rest := ResolveFinds(m, p, visited + {key});
        path := [key] + rest;
        assert path[1..] == rest && path[|path| - 1] == rest[|rest| - 1];
        forall i | 0 <= i < |path| - 1
          ensures Linked(m, path, i)
        {
          if i > 0 {
            assert Linked(m, rest, i - 1);
          }
        }
      }
    }
  }

  /** The walk ends at a root. */
  ghost predicate HasChain(m: Blueprints, key: string) {
    exists path :: Chain(m, path) && path[0] == key
  }

  /** A blueprint resolves exactly when its templates lead up to a root without a missing link
      or a cycle and the merges on the way succeed. The result is the fold of the merges from
      the root down, and its chain is the way, root first, with no key twice. */
  lemma ResolveIffChain(m: Blueprints, key: string)
    requires Unresolved(m) && key in m
    ensures Resolve(m, key, {}).Ok? <==>
            exists path :: Chain(m, path) && path[0] == key && FoldSucceeds(m, path)
    ensures forall path | Chain(m, path) && path[0] == key && FoldSucceeds(m, path) ::
              Gives(m, path, Resolve(m, key, {}).value) && Distinct(path)
  {
    var found := ResolveFinds(m, key, {});
    if Chain(m, found) {
      ChainIsDistinct(m, found);
      ResolveChain(m, {}, found);
    }
    forall path | Chain(m, path) && path[0] == key
      ensures Distinct(path)
      ensures Resolve(m, key, {}).Ok? <==> FoldSucceeds(m, path)
      ensures Resolve(m, key, {}).Ok? ==> Gives(m, path, Resolve(m, key, {}).value)
    {
      ChainIsDistinct(m, path);
      ResolveChain(m, {}, path);
    }
  }

  /** Nowhere further to go: a root, a template that is missing, or one met before. */
  predicate Stops(m: Blueprints, path: seq<string>)
    requires path != [] && path[|path| - 1] in m
  {
    var last := m[path[|path| - 1]];
    last.template == "" || ParentKey(m, last) !in m || ParentKey(m, last) in path
  }

  lemma {:induction false} WalksAgree(m: Blueprints, p: seq<string>, q: seq<string>, i: nat)
    requires Walk(m, p) && Walk(m, q) && p[0] == q[0] && i < |p| && i < |q|
    ensures p[i] == q[i]
  {
    if i > 0 {
      WalksAgree(m, p, q, i - 1);
      assert Linked(m, p, i - 1) && Linked(m, q, i - 1);
    }
  }

  lemma NotLonger(m: Blueprints, p: seq<string>, q: seq<string>)
    requires Walk(m, p) && Walk(m, q) && p[0] == q[0]
    requires Stops(m, p) && Distinct(q)
    ensures |q| <= |p|
  {
    if |p| < |q| {
      var n := |p| - 1;
      WalksAgree(m, p, q, n);
      assert Linked(m, q, n) && q[n + 1] in q;
      var i :| 0 <= i < |p| && p[i] == q[n + 1];
      WalksAgree(m, p, q, i);
      assert false;
    }
  }

  /** Up to where it stops there is one way up. */
  lemma WayUpUnique(m: Blueprints, p: seq<string>, q: seq<string>)
    requires Walk(m, p) && Walk(m, q) && p[0] == q[0]
    requires Stops(m, p) && Stops(m, q) && Distinct(p) && Distinct(q)
    ensures p == q
  {
    NotLonger(m, p, q);
    NotLonger(m, q, p);
    forall i | 0 <= i < |p|
      ensures p[i] == q[i]
    {
      WalksAgree(m, p, q, i);
    }
  }

  /** Each way in which resolution fails, with what it reports: a template is missing exactly
      when the way up ends at it, a cycle is reported exactly when the way up comes back to
      that key, and a merge fails exactly when there is a way up to a root along which merging
      fails. */
  lemma ResolveErrors(m: Blueprints, key: string)
    requires Unresolved(m) && key in m
    ensures var r := Resolve(m, key, {});
            && (forall e: ResolveError :: e.MissingTemplate? ==> (r == Err(e) <==> exists path :: EndsMissing(m, key, path, e)))
            && (forall e: ResolveError :: e.Circular? ==> (r == Err(e) <==> exists path :: EndsInCycle(m, key, path, e)))
            && (r.Err? && r.error.MergeFailed? <==> exists path :: Chain(m, path) && path[0] == key && !FoldSucceeds(m, path))
            && !(r.Err? && r.error.NotFound?)
  {
    var found := ResolveFinds(m, key, {});
    var r := Resolve(m, key, {});
    if Chain(m, found) {
      ResolveChain(m, {}, found);
    }
    forall path | Walk(m, path) && path[0] == key && Stops(m, path) && Distinct(path)
      ensures path == found
    {
      WayUpUnique(m, path, found);
    }
    forall path | Chain(m, path) && path[0] == key
      ensures path == found
    {
      ChainIsDistinct(m, path);
    }
    forall e | r == Err(e) && e.MissingTemplate?
      ensures EndsMissing(m, key, found, e)
    {
    }
    forall e | r == Err(e) && e.Circular?
      ensures EndsInCycle(m, key, found, e)
    {
    }
  }

  ghost predicate EndsMissing(m: Blueprints, key: string, path: seq<string>, e: ResolveError) {
    && Walk(m, path) && path[0] == key && Distinct(path)
    && var last := path[|path| - 1];
       m[last].template != "" && ParentKey(m, m[last]) !in m && e == MissingTemplate(m[last].template, last)
  }

  ghost predicate EndsInCycle(m: Blueprints, key: string, path: seq<string>, e: ResolveError) {
    && Walk(m, path) && path[0] == key && Distinct(path)
    && var last := path[|path| - 1];
       m[last].template != "" && ParentKey(m, m[last]) in path && e == Circular(ParentKey(m, m[last]))
  }

  /** What a blueprint resolves to does not depend on who asked. */
  lemma {:induction false} ResolveAnywhere(m: Blueprints, key: string, visited: set<string>, fewer: set<string>)
    requires Resolve(m, key, visited).Ok? && fewer <= visited
    ensures Resolve(m, key, fewer) == Resolve(m, key, visited)
    decreases m.Keys - visited
  {
    if m[key].template != "" {
      assert key in m.Keys - visited && key !in m.Keys - (visited + {key});
      ResolveAnywhere(m, ParentKey(m, m[key]), visited + {key}, fewer + {key});
    }
  }
}
