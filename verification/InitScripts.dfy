/** The registered merge of initScripts lists (internal/server/server.go:131-165). */
module InitScripts {
  import opened Prelude
  import opened Sequences
  import opened Yaml
  import opened Values

  /** The name of an item that is a map with string keys. */
  function ScriptName(v: Value): Option<string> {
    if v.Dict? && StringKeys(v.fields) then NameField(v.fields) else None
  }

  predicate StringKeys(s: seq<Pair<Keyed>>) {
    s == [] || (s[0].value.tag == "!!str" && StringKeys(s[1..]))
  }

  function NameField(s: seq<Pair<Keyed>>): Option<string> {
    if s == [] then None
    else if s[0].key == "name" then (if s[0].value.value.Str? then Some(s[0].value.value.text) else None)
    else NameField(s[1..])
  }

  predicate Named(v: Value) {
    ScriptName(v).Some? && ScriptName(v).value != ""
  }

  /** The last named item of each name. */
  function ByName(s: seq<Value>): (m: map<string, Value>)
    ensures Carries(m)
  {
    if s == [] then map[] else Own(s[0]) + ByName(s[1..])
  }

  function Own(v: Value): map<string, Value> {
    if Named(v) then map[ScriptName(v).value := v] else map[]
  }

  predicate Carries(m: map<string, Value>) {
    forall n <- m :: n != "" && ScriptName(m[n]) == Some(n)
  }

  predicate Hits(v: Value, byName: map<string, Value>) {
    ScriptName(v).Some? && ScriptName(v).value in byName
  }

  /** The parent's items, each replaced by the child's item of its name the first time that
      name comes up. */
  function Replaced(parent: seq<Value>, byName: map<string, Value>): seq<Value> {
    if parent == [] then []
    else if Hits(parent[0], byName) then
      var name := ScriptName(parent[0]).value;
      [byName[name]] + Replaced(parent[1..], byName - {name})
    else [parent[0]] + Replaced(parent[1..], byName)
  }

  /** The child's items not used that way. */
  function Unused(parent: seq<Value>, byName: map<string, Value>): map<string, Value> {
    if parent == [] then byName
    else if Hits(parent[0], byName) then Unused(parent[1..], byName - {ScriptName(parent[0]).value})
    else Unused(parent[1..], byName)
  }

  function NamedIn(names: set<string>): Value -> bool {
    (v: Value) => Named(v) && ScriptName(v).value in names
  }

  function NamedOutside(names: set<string>): Value -> bool {
    (v: Value) => Named(v) && ScriptName(v).value !in names
  }

  /** The items whose name is among names. */
  function Select(s: seq<Value>, names: set<string>): seq<Value> {
    Filter(s, NamedIn(names))
  }

  /** The named items whose name is not among names. */
  function Others(s: seq<Value>, names: set<string>): seq<Value> {
    Filter(s, NamedOutside(names))
  }

  function Merge(parent: seq<Value>, child: seq<Value>): seq<Value> {
    Replaced(parent, ByName(child)) + Select(child, Unused(parent, ByName(child)).Keys)
  }

  method InitScripts(parent: seq<Value>, child: seq<Value>) returns (result: seq<Value>)
    ensures result == Merge(parent, child)
  {
    var childByName := IndexByName(child);
    result, childByName := ReplaceItems(parent, childByName);
    var added := AddRemaining(child, childByName);
    result := result + added;
  }

  method IndexByName(child: seq<Value>) returns (byName: map<string, Value>)
    ensures byName == ByName(child)
  {
    byName := map[];
    for i := 0 to |child|
      invariant byName == ByName(child[..i])
    {
      ByNameAppend(child[..i], child[i]);
      AddOwn(byName, child[i]);
      assert child[..i + 1] == child[..i] + [child[i]];
      var name := ScriptName(child[i]);
      if name.Some? && name.value != "" {
        byName := byName[name.value := child[i]];
      }
    }
    assert child[..|child|] == child;
  }

  method ReplaceItems(parent: seq<Value>, byName: map<string, Value>) returns (result: seq<Value>, left: map<string, Value>)
    ensures result == Replaced(parent, byName) && left == Unused(parent, byName)
  {
    result, left := [], byName;
    for i := 0 to |parent|
      invariant Replacing(parent, byName, result, left, i)
    {
      var item := parent[i];
      ReplacingNext(parent, byName, result, left, i);
      var name := ScriptName(item);
      if name.Some? && name.value in left {
        result := result + [left[name.value]];
        left := left - {name.value};
        continue;
      }
      result := result + [item];
    }
    ReplacingDone(parent, byName, result, left);
  }

  /** The first i items of the parent are done. */
  ghost predicate Replacing(parent: seq<Value>, byName: map<string, Value>, result: seq<Value>, left: map<string, Value>, i: nat) {
    && i <= |parent|
    && Replaced(parent, byName) == result + Replaced(parent[i..], left)
    && Unused(parent, byName) == Unused(parent[i..], left)
  }

  lemma ReplacingNext(parent: seq<Value>, byName: map<string, Value>, result: seq<Value>, left: map<string, Value>, i: nat)
    requires Replacing(parent, byName, result, left, i) && i < |parent|
    ensures if Hits(parent[i], left) then
              var name := ScriptName(parent[i]).value;
              Replacing(parent, byName, result + [left[name]], left - {name}, i + 1)
            else Replacing(parent, byName, result + [parent[i]], left, i + 1)
  {
    var rest := parent[i..];
    assert rest[0] == parent[i] && rest[1..] == parent[i + 1..];
  }

  lemma ReplacingDone(parent: seq<Value>, byName: map<string, Value>, result: seq<Value>, left: map<string, Value>)
    requires Replacing(parent, byName, result, left, |parent|)
    ensures result == Replaced(parent, byName) && left == Unused(parent, byName)
  {
    assert parent[|parent|..] == [];
  }

  method AddRemaining(child: seq<Value>, left: map<string, Value>) returns (added: seq<Value>)
    ensures added == Select(child, left.Keys)
  {
    added := [];
    for i := 0 to |child|
      invariant added == Select(child[..i], left.Keys)
    {
      SelectAppend(child[..i], child[i], left.Keys);
      assert child[..i + 1] == child[..i] + [child[i]];
      var name := ScriptName(child[i]);
      if name.Some? && name.value != "" {
        if name.value in left {
          added := added + [child[i]];
        }
      }
    }
    assert child[..|child|] == child;
  }

  lemma AddOwn(m: map<string, Value>, v: Value)
    ensures m + Own(v) == if Named(v) then m[ScriptName(v).value := v] else m
  {
  }

  lemma ByNameAppend(s: seq<Value>, v: Value)
    ensures ByName(s + [v]) == ByName(s) + Own(v)
  {
    ByNameConcat(s, [v]);
    ByNameOne(v);
  }

  lemma ByNameOne(v: Value)
    ensures ByName([v]) == Own(v)
  {
    var rest := [v][1..];
    assert rest == [];
    NothingAdded(Own(v), ByName(rest));
  }

  lemma NothingAdded(m: map<string, Value>, n: map<string, Value>)
    requires n == map[]
    ensures m + n == m
  {
  }

  lemma SelectAppend(s: seq<Value>, v: Value, names: set<string>)
    ensures Select(s + [v], names) == Select(s, names) + if NamedIn(names)(v) then [v] else []
  {
    FilterConcat(s, [v], NamedIn(names));
    assert Filter([v][1..], NamedIn(names)) == [];
  }

  // ---- lists whose names are distinct

  predicate DistinctNames(s: seq<Value>) {
    forall i, j :: 0 <= i < j < |s| && Named(s[i]) ==> ScriptName(s[i]) != ScriptName(s[j])
  }

  function Choose(v: Value, m: map<string, Value>): Value {
    if Hits(v, m) then m[ScriptName(v).value] else v
  }

  function Override(s: seq<Value>, m: map<string, Value>): (r: seq<Value>)
    ensures |r| == |s| && forall i :: 0 <= i < |s| ==> r[i] == Choose(s[i], m)
  {
    if s == [] then [] else [Choose(s[0], m)] + Override(s[1..], m)
  }

  lemma {:induction false} NameKnown(s: seq<Value>, i: nat)
    requires i < |s| && Named(s[i])
    ensures ScriptName(s[i]).value in ByName(s)
  {
    if i > 0 {
      NameKnown(s[1..], i - 1);
    }
  }

  lemma {:induction false} NameFound(s: seq<Value>, name: string) returns (i: nat)
    requires name in ByName(s)
    ensures i < |s| && Named(s[i]) && ScriptName(s[i]).value == name
  {
    if name in ByName(s[1..]) {
      i := NameFound(s[1..], name);
      i := i + 1;
    } else {
      i := 0;
    }
  }

  lemma {:induction false} OverrideWithout(s: seq<Value>, m: map<string, Value>, name: string)
    requires name !in ByName(s) && name != ""
    ensures Override(s, m) == Override(s, m - {name})
  {
    if s != [] {
      if Named(s[0]) {
        NameKnown(s, 0);
      }
      OverrideWithout(s[1..], m, name);
    }
  }

  lemma FirstNameIsNew(s: seq<Value>)
    requires s != [] && DistinctNames(s) && Named(s[0])
    ensures ScriptName(s[0]).value !in ByName(s[1..])
  {
    if ScriptName(s[0]).value in ByName(s[1..]) {
      var i := NameFound(s[1..], ScriptName(s[0]).value);
      assert false;
    }
  }

  lemma {:induction false} ReplacedIsOverride(s: seq<Value>, m: map<string, Value>)
    requires DistinctNames(s) && Carries(m)
    ensures Replaced(s, m) == Override(s, m)
  {
    if s != [] {
      if Hits(s[0], m) {
        var name := ScriptName(s[0]).value;
        FirstNameIsNew(s);
        OverrideWithout(s[1..], m, name);
        ReplacedIsOverride(s[1..], m - {name});
      } else {
        ReplacedIsOverride(s[1..], m);
      }
    }
  }

  lemma {:induction false} UnusedIsRest(s: seq<Value>, m: map<string, Value>)
    requires Carries(m)
    ensures Unused(s, m) == m - ByName(s).Keys
  {
    if s != [] {
      UnusedStep(s[0], m);
      UnusedIsRest(s[1..], m - Own(s[0]).Keys);
      KeysOfUnion(Own(s[0]), ByName(s[1..]));
      MinusTwice(m, Own(s[0]).Keys, ByName(s[1..]).Keys);
    }
  }

  lemma UnusedStep(v: Value, m: map<string, Value>)
    requires Carries(m)
    ensures m - Own(v).Keys == if Hits(v, m) then m - {ScriptName(v).value} else m
  {
  }

  lemma KeysOfUnion(m: map<string, Value>, n: map<string, Value>)
    ensures (m + n).Keys == m.Keys + n.Keys
  {
  }

  lemma MinusTwice(m: map<string, Value>, s: set<string>, t: set<string>)
    ensures m - (s + t) == m - s - t
  {
  }

  lemma {:induction false} SelectIsOthers(s: seq<Value>, names: set<string>, others: set<string>)
    requires forall n <- ByName(s) :: n in names <==> n !in others
    ensures Select(s, names) == Others(s, others)
  {
    if s != [] {
      if Named(s[0]) {
        NameKnown(s, 0);
      }
      assert ByName(s[1..]).Keys <= ByName(s).Keys;
      SelectIsOthers(s[1..], names, others);
    }
  }

  /** With distinct names, the merge is the parent's list with the child's items put over
      those of their name, followed by the child's items of new names in order; a child's
      item without a name is dropped. */
  lemma MergeOfDistinct(parent: seq<Value>, child: seq<Value>)
    requires DistinctNames(parent)
    ensures Merge(parent, child) == Override(parent, ByName(child)) + Others(child, ByName(parent).Keys)
  {
    ReplacedIsOverride(parent, ByName(child));
    UnusedIsRest(parent, ByName(child));
    SelectIsOthers(child, Unused(parent, ByName(child)).Keys, ByName(parent).Keys);
  }

  lemma UnionAssociative(m: map<string, Value>, n: map<string, Value>, o: map<string, Value>)
    ensures m + (n + o) == m + n + o
  {
  }

  lemma MinusUnion(m: map<string, Value>, n: map<string, Value>, names: set<string>)
    ensures (m + n) - names == (m - names) + (n - names)
  {
  }

  lemma {:induction false} ByNameConcat(s: seq<Value>, t: seq<Value>)
    ensures ByName(s + t) == ByName(s) + ByName(t)
  {
    if s == [] {
      assert s + t == t;
    } else {
      ByNameConcat(s[1..], t);
      assert (s + t)[1..] == s[1..] + t;
      UnionAssociative(Own(s[0]), ByName(s[1..]), ByName(t));
    }
  }

  lemma {:induction false} ByNameOverride(s: seq<Value>, m: map<string, Value>)
    requires Carries(m)
    ensures ByName(Override(s, m)).Keys == ByName(s).Keys
    ensures forall n <- ByName(s) :: ByName(Override(s, m))[n] == if n in m then m[n] else ByName(s)[n]
  {
    if s != [] {
      ByNameOverride(s[1..], m);
      assert Override(s, m)[1..] == Override(s[1..], m);
    }
  }

  lemma {:induction false} ByNameOthers(s: seq<Value>, names: set<string>)
    ensures ByName(Others(s, names)) == ByName(s) - names
  {
    if s != [] {
      var others := Others(s[1..], names);
      ByNameOthers(s[1..], names);
      MinusUnion(Own(s[0]), ByName(s[1..]), names);
      if Named(s[0]) && ScriptName(s[0]).value !in names {
        assert ([s[0]] + others)[1..] == others;
        assert Own(s[0]) - names == Own(s[0]);
      } else {
        assert Own(s[0]) - names == map[];
      }
    }
  }

  lemma ByNameMerge(parent: seq<Value>, child: seq<Value>)
    requires DistinctNames(parent)
    ensures ByName(Merge(parent, child)) == ByName(parent) + ByName(child)
  {
    MergeOfDistinct(parent, child);
    ByNameConcat(Override(parent, ByName(child)), Others(child, ByName(parent).Keys));
    ByNameOverride(parent, ByName(child));
    ByNameOthers(child, ByName(parent).Keys);
    OverrideUnion(ByName(Override(parent, ByName(child))), ByName(parent), ByName(child));
  }

  lemma OverrideUnion(over: map<string, Value>, m: map<string, Value>, n: map<string, Value>)
    requires over.Keys == m.Keys
    requires forall k <- m :: over[k] == if k in n then n[k] else m[k]
    ensures over + (n - m.Keys) == m + n
  {
  }

  lemma {:induction false} OthersDistinct(s: seq<Value>, names: set<string>)
    requires DistinctNames(s)
    ensures DistinctNames(Others(s, names))
    ensures forall v <- Others(s, names) :: v in s && Named(v) && ScriptName(v).value !in names
  {
    if s != [] {
      OthersDistinct(s[1..], names);
      var t := Others(s[1..], names);
      forall v | v in t && Named(s[0])
        ensures ScriptName(v) != ScriptName(s[0])
      {
        var i :| 0 <= i < |s[1..]| && s[1..][i] == v;
        assert s[i + 1] == v;
      }
    }
  }

  lemma MergeKeepsDistinct(parent: seq<Value>, child: seq<Value>)
    requires DistinctNames(parent) && DistinctNames(child)
    ensures DistinctNames(Merge(parent, child))
  {
    MergeOfDistinct(parent, child);
    var front, back := Override(parent, ByName(child)), Others(child, ByName(parent).Keys);
    OthersDistinct(child, ByName(parent).Keys);
    forall i | 0 <= i < |parent|
      ensures ScriptName(front[i]) == ScriptName(parent[i])
    {
    }
    forall i, j | 0 <= i < |parent| && 0 <= j < |back| && Named(front[i])
      ensures ScriptName(front[i]) != ScriptName(back[j])
    {
      NameKnown(parent, i);
      assert back[j] in back;
    }
  }

  lemma {:induction false} OverrideConcat(s: seq<Value>, t: seq<Value>, m: map<string, Value>)
    ensures Override(s + t, m) == Override(s, m) + Override(t, m)
  {
  }

  lemma OthersConcat(s: seq<Value>, t: seq<Value>, names: set<string>)
    ensures Others(s + t, names) == Others(s, names) + Others(t, names)
  {
    FilterConcat(s, t, NamedOutside(names));
  }

  lemma OverrideTwice(s: seq<Value>, m: map<string, Value>, n: map<string, Value>)
    requires Carries(m) && Carries(n)
    ensures Override(Override(s, m), n) == Override(s, m + n)
  {
  }

  lemma {:induction false} OverrideOthers(s: seq<Value>, m: map<string, Value>, names: set<string>)
    requires Carries(m)
    ensures Override(Others(s, names), m) == Others(Override(s, m), names)
  {
    if s != [] {
      OverrideOthers(s[1..], m, names);
      assert Override(s, m)[1..] == Override(s[1..], m);
      if Named(s[0]) && ScriptName(s[0]).value !in names {
        assert Others(s, names)[1..] == Others(s[1..], names);
      }
    }
  }

  lemma {:induction false} OthersTwice(s: seq<Value>, m: set<string>, n: set<string>)
    ensures Others(Others(s, m), n) == Others(s, m + n)
  {
    if s != [] {
      OthersTwice(s[1..], m, n);
      if Named(s[0]) && ScriptName(s[0]).value !in m {
        assert Others(s, m)[1..] == Others(s[1..], m);
      }
    }
  }

  /** Three lists merged, in one go. */
  function MergeOfThree(a: seq<Value>, b: seq<Value>, c: seq<Value>): seq<Value> {
    Override(a, ByName(b) + ByName(c)) + Override(Others(b, ByName(a).Keys), ByName(c))
    + Others(c, ByName(b).Keys + ByName(a).Keys)
  }

  lemma MergeLeftFirst(a: seq<Value>, b: seq<Value>, c: seq<Value>)
    requires DistinctNames(a) && DistinctNames(b)
    ensures Merge(Merge(a, b), c) == MergeOfThree(a, b, c)
  {
    var ma, mb, mc := ByName(a), ByName(b), ByName(c);
    MergeKeepsDistinct(a, b);
    MergeOfDistinct(a, b);
    MergeOfDistinct(Merge(a, b), c);
    ByNameMerge(a, b);
    OverrideConcat(Override(a, mb), Others(b, ma.Keys), mc);
    OverrideTwice(a, mb, mc);
    assert (ma + mb).Keys == mb.Keys + ma.Keys;
  }

  lemma MergeRightFirst(a: seq<Value>, b: seq<Value>, c: seq<Value>)
    requires DistinctNames(a) && DistinctNames(b)
    ensures Merge(a, Merge(b, c)) == MergeOfThree(a, b, c)
  {
    var ma, mb, mc := ByName(a), ByName(b), ByName(c);
    MergeOfDistinct(b, c);
    MergeOfDistinct(a, Merge(b, c));
    ByNameMerge(b, c);
    OthersConcat(Override(b, mc), Others(c, mb.Keys), ma.Keys);
    OverrideOthers(b, mc, ma.Keys);
    OthersTwice(c, mb.Keys, ma.Keys);
    Concat(Override(a, mb + mc), Override(Others(b, ma.Keys), mc), Others(c, mb.Keys + ma.Keys));
  }

  lemma Concat(s: seq<Value>, t: seq<Value>, u: seq<Value>)
    ensures s + (t + u) == s + t + u
  {
  }

  /** The names of c need not be distinct. */
  lemma MergeIsAssociative(a: seq<Value>, b: seq<Value>, c: seq<Value>)
    requires DistinctNames(a) && DistinctNames(b)
    ensures Merge(Merge(a, b), c) == Merge(a, Merge(b, c))
  {
    MergeLeftFirst(a, b, c);
    MergeRightFirst(a, b, c);
  }
}
