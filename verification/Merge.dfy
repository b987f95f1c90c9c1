/** Deep merge of a template and the blueprint built on it
    (internal/blueprint/resolve.go:102-271). */
module Merge {
  import opened Prelude
  import opened Yaml
  import opened Values
  import opened MergeStrategy
  import Scripts = InitScripts

  datatype MergeError = UndecodableList(key: string)

  /** Never inherited, at any depth. */
  predicate Withheld(key: string) {
    key == "isTemplate" || key == "description"
  }

  function ChildPath(path: string, key: string): string {
    if path == "" then key else path + "." + key
  }

  /** The value of the last entry of that key. */
  function Lookup(s: seq<Entry>, key: string): Option<Node> {
    if s == [] then None
    else
      var later := Lookup(s[1..], key);
      if later.Some? then later else if Text(s[0].key) == key then Some(s[0].value) else None
  }

  // ---- the merge, for lists that decode

  function Merged(parent: Node, child: Node, path: string): Node
    decreases child, 0
  {
    if !child.Mapping? || !parent.Mapping? then child
    else Mapping("!!map", MergedEntries(parent.entries, child.entries, path))
  }

  function MergedEntries(parent: seq<Entry>, child: seq<Entry>, path: string): seq<Entry>
    decreases child, 1
  {
    Over(parent, child, path) + Inherited(parent, child)
  }

  /** The child's entries, in its order, with what the parent has under their keys. */
  function Over(parent: seq<Entry>, child: seq<Entry>, path: string): (r: seq<Entry>)
    ensures |r| == |child|
    ensures forall i :: 0 <= i < |child| ==> r[i].key == child[i].key
    decreases child, 0
  {
    if child == [] then [] else [MergedEntry(parent, child[0], path)] + Over(parent, child[1..], path)
  }

  function MergedEntry(parent: seq<Entry>, e: Entry, path: string): (r: Entry)
    ensures r.key == e.key
    decreases e
  {
    var key := Text(e.key);
    var p := Lookup(parent, key);
    if p.None? then e else Entry(e.key, MergedValue(p.value, e.value, key, ChildPath(path, key)))
  }

  function MergedValue(parent: Node, child: Node, key: string, path: string): Node
    decreases child, 1
  {
    if parent.Mapping? && child.Mapping? then Merged(parent, child, path)
    else if parent.Sequence? && child.Sequence? then MergedList(parent, child, key, path)
    else child
  }

  function MergedList(parent: Node, child: Node, key: string, path: string): Node
    requires parent.Sequence? && child.Sequence?
  {
    var strategy := StrategyFor(key, path);
    var p, c := Decode(parent), Decode(child);
    if strategy.None? || p.None? || c.None? then child
    else Encode(Items(Apply(strategy.value, p.value.items, c.value.items)))
  }

  /** The parent's entries, in its order, that the child does not have. */
  function Inherited(parent: seq<Entry>, child: seq<Entry>): seq<Entry> {
    if parent == [] then []
    else if Text(parent[0].key) in Keys(child) || Withheld(Text(parent[0].key)) then Inherited(parent[1..], child)
    else [parent[0]] + Inherited(parent[1..], child)
  }

  // ---- lists that do not decode

  /** Every list merged by a strategy decodes, the parent's and the child's. */
  predicate Mergeable(parent: Node, child: Node, path: string)
    decreases child, 0
  {
    child.Mapping? && parent.Mapping? ==> MergeableEntries(parent.entries, child.entries, path)
  }

  predicate MergeableEntries(parent: seq<Entry>, child: seq<Entry>, path: string)
    decreases child
  {
    child == [] || (MergeableEntry(parent, child[0], path) && MergeableEntries(parent, child[1..], path))
  }

  predicate MergeableEntry(parent: seq<Entry>, e: Entry, path: string)
    decreases e
  {
    var key := Text(e.key);
    var p := Lookup(parent, key);
    p.Some? ==> MergeableValue(p.value, e.value, key, ChildPath(path, key))
  }

  predicate MergeableValue(parent: Node, child: Node, key: string, path: string)
    decreases child, 1
  {
    if parent.Mapping? && child.Mapping? then Mergeable(parent, child, path)
    else parent.Sequence? && child.Sequence? && StrategyFor(key, path).Some? ==>
           Decode(parent).Some? && Decode(child).Some?
  }

  // ---- the code

  predicate Outcome(r: Result<Node, MergeError>, ok: bool, merged: Node) {
    (r.Ok? <==> ok) && (r.Ok? ==> r.value == merged)
  }

  method MergeYAMLNodes(parent: Node, child: Node) returns (r: Result<Node, MergeError>)
    ensures Outcome(r, Mergeable(parent, child, ""), Merged(parent, child, ""))
  {
    r := MergeYAMLNodesWithTags(parent, child, "");
  }

  method MergeYAMLNodesWithTags(parent: Node, child: Node, path: string) returns (r: Result<Node, MergeError>)
    ensures Outcome(r, Mergeable(parent, child, path), Merged(parent, child, path))
    decreases child, 0
  {
    if !child.Mapping? {
      return Ok(child);
    }
    if !parent.Mapping? {
      return Ok(child);
    }
    var parentKeys: map<string, Node> := map[];
    for i := 0 to |parent.entries|
      invariant Index(parentKeys, parent.entries[..i])
    {
      var e := parent.entries[i];
      LookupAppend(parent.entries[..i], e);
      assert parent.entries[..i + 1] == parent.entries[..i] + [e];
      parentKeys := parentKeys[Text(e.key) := e.value];
    }
    assert parent.entries[..|parent.entries|] == parent.entries;
    var content, processed, err := MergeChild(parent.entries, parentKeys, child.entries, path);
    if err.Some? {
      return Err(err.value);
    }
    content := AppendInherited(parent.entries, child.entries, processed, content);
    r := Ok(Mapping("!!map", content));
  }

  method AppendInherited(parent: seq<Entry>, ghost child: seq<Entry>, processed: set<string>, front: seq<Entry>)
      returns (content: seq<Entry>)
    requires forall k :: k in processed <==> k in Keys(child)
    ensures content == front + Inherited(parent, child)
  {
    content := front;
    for i := 0 to |parent|
      invariant content == front + Inherited(parent[..i], child)
    {
      InheritedAppend(parent[..i], parent[i], child);
      assert parent[..i + 1] == parent[..i] + [parent[i]];
      var key := Text(parent[i].key);
      if key !in processed {
        if key != "isTemplate" && key != "description" {
          content := content + [parent[i]];
        }
      }
    }
    assert parent[..|parent|] == parent;
  }

  method MergeChild(parent: seq<Entry>, parentKeys: map<string, Node>, child: seq<Entry>, path: string)
      returns (content: seq<Entry>, processed: set<string>, err: Option<MergeError>)
    requires Index(parentKeys, parent)
    ensures err.None? <==> MergeableEntries(parent, child, path)
    ensures err.None? ==> content == Over(parent, child, path)
    ensures err.None? ==> forall k :: k in processed <==> k in Keys(child)
    decreases child
  {
    content, processed, err := [], {}, None;
    for i := 0 to |child|
      invariant |content| == i && forall j :: 0 <= j < i ==> content[j] == MergedEntry(parent, child[j], path)
      invariant forall j :: 0 <= j < i ==> MergeableEntry(parent, child[j], path)
      invariant processed == set e <- child[..i] :: Text(e.key)
    {
      assert child[..i + 1] == child[..i] + [child[i]];
      var merged := MergeOne(parent, parentKeys, child[i], path);
      if merged.Err? {
        if MergeableEntries(parent, child, path) {
          MergeableAt(parent, child, i, path);
        }
        return content, processed, Some(merged.error);
      }
      content := content + [merged.value];
      processed := processed + {Text(child[i].key)};
    }
    MergedAll(parent, child, content, path);
    KeysOf(child);
    assert child[..|child|] == child;
  }

  lemma KeysOf(s: seq<Entry>)
    ensures forall k :: k in Keys(s) <==> exists e <- s :: Text(e.key) == k
  {
    forall e | e in s
      ensures Text(e.key) in Keys(s)
    {
      var i :| 0 <= i < |s| && s[i] == e;
      assert Keys(s)[i] == Text(e.key);
    }
  }

  lemma {:induction false} MergeableAt(parent: seq<Entry>, child: seq<Entry>, i: nat, path: string)
    requires i < |child| && MergeableEntries(parent, child, path)
    ensures MergeableEntry(parent, child[i], path)
  {
    if i > 0 {
      MergeableAt(parent, child[1..], i - 1, path);
    }
  }

  lemma {:induction false} MergedAll(parent: seq<Entry>, child: seq<Entry>, content: seq<Entry>, path: string)
    requires |content| == |child| && forall j :: 0 <= j < |child| ==> content[j] == MergedEntry(parent, child[j], path)
    requires forall j :: 0 <= j < |child| ==> MergeableEntry(parent, child[j], path)
    ensures MergeableEntries(parent, child, path) && content == Over(parent, child, path)
  {
    if child != [] {
      MergedAll(parent, child[1..], content[1..], path);
      assert content == [content[0]] + content[1..];
    }
  }

  lemma {:induction false} OverAt(parent: seq<Entry>, child: seq<Entry>, i: nat, path: string)
    requires i < |child|
    ensures Over(parent, child, path)[i] == MergedEntry(parent, child[i], path)
  {
    if i > 0 {
      OverAt(parent, child[1..], i - 1, path);
    }
  }

  ghost predicate Index(m: map<string, Node>, s: seq<Entry>) {
    && (forall k :: k in m <==> Lookup(s, k).Some?)
    && (forall k <- m :: Lookup(s, k) == Some(m[k]))
  }

  method MergeOne(parent: seq<Entry>, parentKeys: map<string, Node>, e: Entry, path: string)
      returns (r: Result<Entry, MergeError>)
    requires Index(parentKeys, parent)
    ensures r.Ok? <==> MergeableEntry(parent, e, path)
    ensures r.Ok? ==> r.value == MergedEntry(parent, e, path)
    decreases e
  {
    var key := Text(e.key);
    if key in parentKeys {
      var value := MergeValueNodes(parentKeys[key], e.value, key, ChildPath(path, key));
      if value.Err? {
        return Err(value.error);
      }
      r := Ok(Entry(e.key, value.value));
    } else {
      r := Ok(e);
    }
  }

  method MergeValueNodes(parent: Node, child: Node, key: string, path: string) returns (r: Result<Node, MergeError>)
    ensures Outcome(r, MergeableValue(parent, child, key, path), MergedValue(parent, child, key, path))
    decreases child, 1
  {
    if parent.Mapping? && child.Mapping? {
      r := MergeYAMLNodesWithTags(parent, child, path);
    } else if parent.Sequence? && child.Sequence? {
      r := MergeSequenceNodes(parent, child, key, path);
    } else {
      r := Ok(child);
    }
  }

  method MergeSequenceNodes(parent: Node, child: Node, key: string, path: string) returns (r: Result<Node, MergeError>)
    requires parent.Sequence? && child.Sequence?
    ensures Outcome(r, MergeableValue(parent, child, key, path), MergedList(parent, child, key, path))
  {
    var strategy := FindStrategy(REGISTERED, key, path);
    RegisteredOrderIsIrrelevant(key, path, strategy);
    if strategy.None? {
      return Ok(child);
    }
    var parentList := Decode(parent);
    if parentList.None? {
      return Err(UndecodableList(key));
    }
    var childList := Decode(child);
    if childList.None? {
      return Err(UndecodableList(key));
    }
    var merged: seq<Value>;
    match strategy.value {
      case ChildWins => merged := childList.value.items;
      case ByScriptName => merged := Scripts.InitScripts(parentList.value.items, childList.value.items);
    }
    r := Ok(Encode(Items(merged)));
  }

  lemma {:induction false} LookupAppend(s: seq<Entry>, e: Entry)
    ensures forall k :: Lookup(s + [e], k) == if k == Text(e.key) then Some(e.value) else Lookup(s, k)
  {
    if s == [] {
      assert s + [e] == [e];
      assert [e][1..] == [];
    } else {
      LookupAppend(s[1..], e);
      assert (s + [e])[1..] == s[1..] + [e];
    }
  }

  lemma {:induction false} InheritedAppend(s: seq<Entry>, e: Entry, child: seq<Entry>)
    ensures Inherited(s + [e], child) ==
            Inherited(s, child) + if Text(e.key) in Keys(child) || Withheld(Text(e.key)) then [] else [e]
  {
    if s == [] {
      assert s + [e] == [e];
      assert [e][1..] == [];
    } else {
      InheritedAppend(s[1..], e, child);
      assert (s + [e])[1..] == s[1..] + [e];
    }
  }
}
