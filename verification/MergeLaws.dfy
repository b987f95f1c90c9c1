/** What the merge means key by key, and its associativity along a template chain. */
module MergeLaws {
  import opened Prelude
  import opened Yaml
  import opened Values
  import opened MergeStrategy
  import opened Merge
  import opened ListStrategies
  import Scripts = InitScripts

  // ---- key by key

  lemma {:induction false} LookupNone(s: seq<Entry>, key: string)
    ensures Lookup(s, key).None? <==> key !in Keys(s)
  {
    if s != [] {
      LookupNone(s[1..], key);
      KeysCons(s);
    }
  }

  lemma TailDistinct(s: seq<Entry>)
    requires s != [] && Distinct(Keys(s))
    ensures Distinct(Keys(s[1..])) && Text(s[0].key) !in Keys(s[1..])
  {
    var keys := Keys(s[1..]);
    forall i | 0 <= i < |keys|
      ensures keys[i] == Keys(s)[i + 1] && keys[i] != Text(s[0].key)
    {
      assert Keys(s)[0] != Keys(s)[i + 1];
    }
  }

  lemma {:induction false} LookupAt(s: seq<Entry>, i: nat)
    requires i < |s| && Distinct(Keys(s))
    ensures Lookup(s, Text(s[i].key)) == Some(s[i].value)
  {
    TailDistinct(s);
    if i == 0 {
      LookupNone(s[1..], Text(s[0].key));
    } else {
      LookupAt(s[1..], i - 1);
    }
  }

  lemma {:induction false} LookupConcat(s: seq<Entry>, t: seq<Entry>, key: string)
    ensures Lookup(s + t, key) == if Lookup(t, key).Some? then Lookup(t, key) else Lookup(s, key)
  {
    if s == [] {
      assert s + t == t;
    } else {
      LookupConcat(s[1..], t, key);
      assert (s + t)[1..] == s[1..] + t;
    }
  }

  lemma {:induction false} LookupOver(parent: seq<Entry>, child: seq<Entry>, path: string, key: string)
    ensures Lookup(Over(parent, child, path), key) ==
            var c, p := Lookup(child, key), Lookup(parent, key);
            if c.None? then None
            else if p.None? then c
            else Some(MergedValue(p.value, c.value, key, ChildPath(path, key)))
  {
    if child != [] {
      LookupOver(parent, child[1..], path, key);
    }
  }

  lemma {:induction false} LookupInherited(parent: seq<Entry>, child: seq<Entry>, key: string)
    ensures Lookup(Inherited(parent, child), key) ==
            if key in Keys(child) || Withheld(key) then None else Lookup(parent, key)
  {
    if parent != [] {
      LookupInherited(parent[1..], child, key);
    }
  }

  /** Under a key of both stands the merge of their values, under a key of one of them its
      value, except that a withheld key comes from the child alone. */
  lemma MergeKeyByKey(parent: seq<Entry>, child: seq<Entry>, path: string, key: string)
    ensures Lookup(MergedEntries(parent, child, path), key) ==
            var c, p := Lookup(child, key), Lookup(parent, key);
            if c.Some? && p.Some? then Some(MergedValue(p.value, c.value, key, ChildPath(path, key)))
            else if c.Some? then c
            else if Withheld(key) then None
            else p
  {
    LookupConcat(Over(parent, child, path), Inherited(parent, child), key);
    LookupOver(parent, child, path, key);
    LookupInherited(parent, child, key);
    LookupNone(child, key);
  }

  function Outside(s: seq<string>, keys: seq<string>): seq<string> {
    if s == [] then []
    else if s[0] in keys || Withheld(s[0]) then Outside(s[1..], keys)
    else [s[0]] + Outside(s[1..], keys)
  }

  lemma {:induction false} InheritedKeys(parent: seq<Entry>, child: seq<Entry>)
    ensures Keys(Inherited(parent, child)) == Outside(Keys(parent), Keys(child))
  {
    if parent != [] {
      InheritedKeys(parent[1..], child);
      assert Keys(parent)[1..] == Keys(parent[1..]);
      var rest := Inherited(parent[1..], child);
      assert Keys([parent[0]] + rest) == [Text(parent[0].key)] + Keys(rest);
    }
  }

  /** The child's keys come first, in its order, then the parent's others, in its order. */
  lemma MergeKeyOrder(parent: seq<Entry>, child: seq<Entry>, path: string)
    ensures Keys(MergedEntries(parent, child, path)) == Keys(child) + Outside(Keys(parent), Keys(child))
  {
    InheritedKeys(parent, child);
    OverKeys(parent, child, path);
    KeysConcat(Over(parent, child, path), Inherited(parent, child));
  }

  lemma OverKeys(parent: seq<Entry>, child: seq<Entry>, path: string)
    ensures Keys(Over(parent, child, path)) == Keys(child)
  {
  }

  lemma KeysConcat(s: seq<Entry>, t: seq<Entry>)
    ensures Keys(s + t) == Keys(s) + Keys(t)
  {
  }

  lemma KeysCons(s: seq<Entry>)
    requires s != []
    ensures Keys(s) == [Text(s[0].key)] + Keys(s[1..])
  {
  }

  // ---- path by path

  /** What stands at a path of keys, followed down mappings. */
  function At(n: Node, q: seq<string>): Option<Node>
    decreases |q|
  {
    if q == [] then Some(n)
    else if !n.Mapping? || Lookup(n.entries, q[0]).None? then None
    else At(Lookup(n.entries, q[0]).value, q[1..])
  }

  /** How far down q there is something in n. */
  function Reach(n: Node, q: seq<string>): (k: nat)
    ensures k <= |q|
    decreases |q|
  {
    if q == [] || !n.Mapping? || Lookup(n.entries, q[0]).None? then 0
    else 1 + Reach(Lookup(n.entries, q[0]).value, q[1..])
  }

  /** That is the longest prefix of q at which something stands. */
  lemma {:induction false} ReachIsLongest(n: Node, q: seq<string>)
    ensures forall k :: 0 <= k <= |q| ==> (At(n, q[..k]).Some? <==> k <= Reach(n, q))
    ensures Reach(n, q) == |q| <==> At(n, q).Some?
    decreases |q|
  {
    forall k | 0 <= k <= |q|
      ensures At(n, q[..k]).Some? <==> k <= Reach(n, q)
    {
      if k > 0 {
        assert q[..k][0] == q[0] && q[..k][1..] == q[1..][..k - 1];
        if n.Mapping? && Lookup(n.entries, q[0]).Some? {
          ReachIsLongest(Lookup(n.entries, q[0]).value, q[1..]);
        }
      }
    }
    assert q[..|q|] == q;
  }

  predicate IsMapping(n: Option<Node>) {
    n.Some? && n.value.Mapping?
  }

  predicate IsSequence(n: Option<Node>) {
    n.Some? && n.value.Sequence?
  }

  function StrategyAt(path: string, q: seq<string>): Option<Strategy> {
    if q == [] then None else StrategyFor(q[|q| - 1], Dotted(path, q))
  }

  /** The answer m of a merge where the child has c and the parent p: c, unless both are
      mappings, whose keys come together, or lists that a strategy merges. */
  ghost predicate ChildAnswers(m: Option<Node>, p: Option<Node>, c: Option<Node>, strategy: Option<Strategy>) {
    c.Some? ==>
      if IsMapping(p) && IsMapping(c) then
        && m.Some? && m.value.Mapping? && m.value.tag == "!!map"
        && Keys(m.value.entries) == Keys(c.value.entries) + Outside(Keys(p.value.entries), Keys(c.value.entries))
      else if IsSequence(p) && IsSequence(c) && strategy.Some? then
        var ps, cs := Decode(p.value), Decode(c.value);
        ps.Some? && cs.Some? ==>
          m == Some(Encode(Items(match strategy.value
                                 case ChildWins => cs.value.items
                                 case ByScriptName => Scripts.Merge(ps.value.items, cs.value.items))))
      else m == c
  }

  /** The answer m where the child's part of a path ends at c, beside the parent's p, and key
      is the next: what the parent has at the path, provided that both are mappings there and
      the key is none of the two never inherited. */
  ghost predicate ParentAnswers(m: Option<Node>, whole: Option<Node>, p: Option<Node>, c: Option<Node>, key: string) {
    m == if IsMapping(c) && IsMapping(p) && key != "isTemplate" && key != "description" then whole else None
  }

  ghost predicate Answers(m: Option<Node>, p: Node, c: Node, path: string, q: seq<string>) {
    var k := Reach(c, q);
    && ChildAnswers(m, At(p, q), At(c, q), StrategyAt(path, q))
    && (k < |q| ==> ParentAnswers(m, At(p, q), At(p, q[..k]), At(c, q[..k]), q[k]))
  }

  lemma AtTail(n: Node, q: seq<string>, k: nat)
    requires 0 < k <= |q| && n.Mapping? && Lookup(n.entries, q[0]).Some?
    ensures At(n, q[..k]) == At(Lookup(n.entries, q[0]).value, q[1..][..k - 1])
  {
    assert q[..k][0] == q[0] && q[..k][1..] == q[1..][..k - 1];
  }

  lemma AtNone(n: Node, q: seq<string>, k: nat)
    requires 0 < k <= |q| && n.Mapping? && Lookup(n.entries, q[0]).None?
    ensures At(n, q[..k]).None?
  {
    assert q[..k][0] == q[0];
  }

  lemma AtUnder(n: Node, q: seq<string>, v: Node)
    requires q != [] && n.Mapping? && Lookup(n.entries, q[0]) == Some(v)
    ensures At(n, q) == At(v, q[1..]) && Reach(n, q) == 1 + Reach(v, q[1..])
  {
  }

  lemma AtLeaf(n: Node, q: seq<string>)
    requires q != [] && !n.Mapping?
    ensures At(n, q).None? && Reach(n, q) == 0
  {
  }

  lemma {:induction false} MergedAt(p: Node, c: Node, path: string, q: seq<string>)
    requires p.Mapping? && c.Mapping?
    ensures Answers(At(Merged(p, c, path), q), p, c, path, q)
    decreases |q|
  {
    if q == [] {
      MergeKeyOrder(p.entries, c.entries, path);
    } else {
      var pv, cv := Lookup(p.entries, q[0]), Lookup(c.entries, q[0]);
      if cv.None? {
        MergedWithoutChild(p, c, path, q);
      } else if pv.None? {
        MergedWithoutParent(p, c, path, q);
      } else if pv.value.Mapping? && cv.value.Mapping? {
        MergedAt(pv.value, cv.value, ChildPath(path, q[0]), q[1..]);
        MergedBelow(p, c, path, q, pv.value, cv.value);
      } else if |q| == 1 {
        MergedApartHere(p, c, path, q, pv.value, cv.value);
      } else {
        MergedApartBelow(p, c, path, q, pv.value, cv.value);
      }
    }
  }

  lemma MergedWithoutChild(p: Node, c: Node, path: string, q: seq<string>)
    requires p.Mapping? && c.Mapping? && q != [] && Lookup(c.entries, q[0]).None?
    ensures Answers(At(Merged(p, c, path), q), p, c, path, q)
  {
    MergeKeyByKey(p.entries, c.entries, path, q[0]);
    assert q[..0] == [];
    if Lookup(p.entries, q[0]).Some? {
      AtUnder(p, q, Lookup(p.entries, q[0]).value);
    }
  }

  lemma MergedWithoutParent(p: Node, c: Node, path: string, q: seq<string>)
    requires p.Mapping? && c.Mapping? && q != [] && Lookup(c.entries, q[0]).Some? && Lookup(p.entries, q[0]).None?
    ensures Answers(At(Merged(p, c, path), q), p, c, path, q)
  {
    MergeKeyByKey(p.entries, c.entries, path, q[0]);
    AtUnder(c, q, Lookup(c.entries, q[0]).value);
    AtUnder(Merged(p, c, path), q, Lookup(c.entries, q[0]).value);
    ReachIsLongest(c, q);
    AtNone(p, q, Reach(c, q));
    assert At(p, q).None?;
  }

  ghost predicate Both(p: Node, c: Node, q: seq<string>, pv: Node, cv: Node) {
    && p.Mapping? && c.Mapping? && q != []
    && Lookup(p.entries, q[0]) == Some(pv) && Lookup(c.entries, q[0]) == Some(cv)
  }

  lemma MergedBelow(p: Node, c: Node, path: string, q: seq<string>, pv: Node, cv: Node)
    requires Both(p, c, q, pv, cv) && pv.Mapping? && cv.Mapping?
    requires Answers(At(Merged(pv, cv, ChildPath(path, q[0])), q[1..]), pv, cv, ChildPath(path, q[0]), q[1..])
    ensures Answers(At(Merged(p, c, path), q), p, c, path, q)
  {
    var rest, k := q[1..], Reach(c, q);
    MergeKeyByKey(p.entries, c.entries, path, q[0]);
    AtUnder(p, q, pv);
    AtUnder(c, q, cv);
    AtUnder(Merged(p, c, path), q, Merged(pv, cv, ChildPath(path, q[0])));
    AtTail(c, q, k);
    AtTail(p, q, k);
    if rest != [] {
      assert StrategyAt(path, q) == StrategyAt(ChildPath(path, q[0]), rest);
    }
  }

  lemma MergedApartHere(p: Node, c: Node, path: string, q: seq<string>, pv: Node, cv: Node)
    requires Both(p, c, q, pv, cv) && !(pv.Mapping? && cv.Mapping?) && |q| == 1
    ensures Answers(At(Merged(p, c, path), q), p, c, path, q)
  {
    var m := MergedValue(pv, cv, q[0], ChildPath(path, q[0]));
    MergeKeyByKey(p.entries, c.entries, path, q[0]);
    AtUnder(p, q, pv);
    AtUnder(c, q, cv);
    AtUnder(Merged(p, c, path), q, m);
    assert q[1..] == [] && Dotted(path, q) == ChildPath(path, q[0]);
  }

  lemma ApartValue(p: Node, c: Node, key: string, path: string)
    requires !(p.Mapping? && c.Mapping?)
    ensures var m := MergedValue(p, c, key, path);
            if c.Mapping? then m == c else !m.Mapping?
  {
  }

  /** Nothing but the child's own is left below. */
  lemma MergedApartBelow(p: Node, c: Node, path: string, q: seq<string>, pv: Node, cv: Node)
    requires Both(p, c, q, pv, cv) && !(pv.Mapping? && cv.Mapping?) && |q| > 1
    ensures Answers(At(Merged(p, c, path), q), p, c, path, q)
  {
    var m, rest, k := MergedValue(pv, cv, q[0], ChildPath(path, q[0])), q[1..], Reach(c, q);
    MergeKeyByKey(p.entries, c.entries, path, q[0]);
    ApartValue(pv, cv, q[0], ChildPath(path, q[0]));
    AtUnder(p, q, pv);
    AtUnder(c, q, cv);
    AtUnder(Merged(p, c, path), q, m);
    AtTail(c, q, k);
    AtTail(p, q, k);
    ReachIsLongest(c, q);
    if cv.Mapping? {
      AtLeaf(pv, rest);
    } else {
      AtLeaf(m, rest);
      AtLeaf(cv, rest);
      assert rest[..k - 1] == [];
    }
  }

  /** What a merge holds at every path, in terms of what the two sides hold there: where the
      child has something, and where it has nothing, its part of the path ending after k
      keys. */
  lemma MergeByPaths(p: Node, c: Node, q: seq<string>)
    requires p.Mapping? && c.Mapping?
    ensures ChildAnswers(At(Merged(p, c, ""), q), At(p, q), At(c, q), StrategyAt("", q))
    ensures forall k :: 0 <= k < |q| && At(c, q[..k]).Some? && At(c, q[..k + 1]).None? ==>
              ParentAnswers(At(Merged(p, c, ""), q), At(p, q), At(p, q[..k]), At(c, q[..k]), q[k])
  {
    MergedAt(p, c, "", q);
    forall k | 0 <= k < |q| && At(c, q[..k]).Some? && At(c, q[..k + 1]).None?
      ensures k == Reach(c, q)
    {
      ReachIsLongest(c, q);
    }
  }

  // ---- the trees the merge is associative on

  datatype Kind = MappingKind | SequenceKind | OtherKind

  function KindOf(n: Node): Kind {
    match n
    case Mapping(_, _) => MappingKind
    case Sequence(_, _) => SequenceKind
    case _ => OtherKind
  }

  /** Keys are distinct, descriptions and isTemplate flags are no collections, and a list
      with a strategy decodes to values the encoder keeps, with distinct script names. */
  predicate Tidy(n: Node, key: string, path: string)
    decreases n, 0
  {
    match n
    case Mapping(_, entries) => Distinct(Keys(entries)) && TidyEntries(entries, path)
    case Sequence(_, _) => TidyList(n, key, path)
    case _ => true
  }

  predicate TidyEntries(s: seq<Entry>, path: string)
    decreases s
  {
    s == [] || (TidyEntry(s[0], path) && TidyEntries(s[1..], path))
  }

  predicate TidyEntry(e: Entry, path: string)
    decreases e
  {
    var key := Text(e.key);
    (Withheld(key) ==> KindOf(e.value) == OtherKind) && Tidy(e.value, key, ChildPath(path, key))
  }

  predicate TidyList(n: Node, key: string, path: string)
    requires n.Sequence?
  {
    var strategy := StrategyFor(key, path);
    strategy.Some? ==>
      && Decode(n).Some? && NeatAll(Decode(n).value.items)
      && (strategy.value == ByScriptName ==> Scripts.DistinctNames(Decode(n).value.items))
  }

  /** No key changes kind from one to the other, as far down as both have it. */
  predicate SameKinds(a: Node, b: Node)
    decreases b, 0
  {
    && KindOf(a) == KindOf(b)
    && (a.Mapping? && b.Mapping? ==> SameKindEntries(a.entries, b.entries))
  }

  predicate SameKindEntries(a: seq<Entry>, b: seq<Entry>)
    decreases b
  {
    b == [] || (SameKindEntry(a, b[0]) && SameKindEntries(a, b[1..]))
  }

  predicate SameKindEntry(a: seq<Entry>, e: Entry)
    decreases e
  {
    var v := Lookup(a, Text(e.key));
    v.Some? ==> SameKinds(v.value, e.value)
  }

  lemma {:induction false} TidyLookup(s: seq<Entry>, path: string, key: string)
    requires TidyEntries(s, path) && Lookup(s, key).Some?
    ensures Tidy(Lookup(s, key).value, key, ChildPath(path, key))
    ensures Withheld(key) ==> KindOf(Lookup(s, key).value) == OtherKind
  {
    if Lookup(s[1..], key).Some? {
      TidyLookup(s[1..], path, key);
    }
  }

  lemma {:induction false} SameKindsLookup(a: seq<Entry>, b: seq<Entry>, key: string)
    requires SameKindEntries(a, b) && Lookup(a, key).Some? && Lookup(b, key).Some?
    ensures SameKinds(Lookup(a, key).value, Lookup(b, key).value)
  {
    if Lookup(b[1..], key).Some? {
      SameKindsLookup(a, b[1..], key);
    }
  }

  // ---- associativity

  lemma {:induction false} NeatElements(s: seq<Value>)
    ensures NeatAll(s) <==> forall v <- s :: Neat(v)
  {
    if s != [] {
      NeatElements(s[1..]);
      assert s == [s[0]] + s[1..];
      if NeatAll(s) {
        assert forall v <- s :: v == s[0] || v in s[1..];
      } else if Neat(s[0]) {
        var v :| v in s[1..] && !Neat(v);
        assert v in s;
      } else {
        assert s[0] in s;
      }
    }
  }

  lemma ScriptsFromEither(parent: seq<Value>, child: seq<Value>)
    requires Scripts.DistinctNames(parent)
    ensures forall v <- Scripts.Merge(parent, child) :: v in parent || v in child
  {
    Scripts.MergeOfDistinct(parent, child);
    var m := Scripts.ByName(child);
    forall i | 0 <= i < |parent|
      ensures Scripts.Override(parent, m)[i] in parent || Scripts.Override(parent, m)[i] in child
    {
      var name := Scripts.ScriptName(parent[i]);
      if name.Some? && name.value in m {
        ByNameFrom(child, name.value);
      }
    }
  }

  lemma {:induction false} ByNameFrom(s: seq<Value>, name: string)
    requires name in Scripts.ByName(s)
    ensures Scripts.ByName(s)[name] in s
  {
    if name in Scripts.ByName(s[1..]) {
      ByNameFrom(s[1..], name);
    }
  }

  /** Merging two tidy lists gives a tidy list that decodes to the merge of the values. */
  lemma MergedListTidy(p: Node, c: Node, key: string, path: string)
    requires p.Sequence? && c.Sequence? && TidyList(p, key, path) && TidyList(c, key, path)
    ensures var m := MergedList(p, c, key, path);
            && m.Sequence? && TidyList(m, key, path)
            && (StrategyFor(key, path).Some? ==>
                  Decode(m) == Some(Items(Apply(StrategyFor(key, path).value, Decode(p).value.items, Decode(c).value.items))))
  {
    var strategy := StrategyFor(key, path);
    if strategy.Some? {
      var ps, cs := Decode(p).value.items, Decode(c).value.items;
      var out := Apply(strategy.value, ps, cs);
      if strategy.value == ByScriptName {
        ScriptsFromEither(ps, cs);
        Scripts.MergeKeepsDistinct(ps, cs);
      }
      NeatElements(ps);
      NeatElements(cs);
      NeatElements(out);
      DecodeEncode(Items(out));
    }
  }

  lemma MergedListAssociative(a: Node, b: Node, c: Node, key: string, path: string)
    requires a.Sequence? && b.Sequence? && c.Sequence?
    requires TidyList(a, key, path) && TidyList(b, key, path) && TidyList(c, key, path)
    ensures var ab, bc := MergedList(a, b, key, path), MergedList(b, c, key, path);
            ab.Sequence? && bc.Sequence? && MergedList(ab, c, key, path) == MergedList(a, bc, key, path)
  {
    MergedListTidy(a, b, key, path);
    MergedListTidy(b, c, key, path);
    if StrategyFor(key, path) == Some(ByScriptName) {
      Scripts.MergeIsAssociative(Decode(a).value.items, Decode(b).value.items, Decode(c).value.items);
    }
  }

  lemma {:induction false} ValueAssociative(a: Node, b: Node, c: Node, key: string, path: string)
    requires Tidy(a, key, path) && Tidy(b, key, path) && Tidy(c, key, path)
    requires SameKinds(a, b) && SameKinds(b, c) && SameKinds(a, c)
    ensures MergedValue(MergedValue(a, b, key, path), c, key, path) == MergedValue(a, MergedValue(b, c, key, path), key, path)
    decreases c, 1
  {
    match KindOf(a)
    case MappingKind => EntriesAssociative(a.entries, b.entries, c.entries, path);
    case SequenceKind => MergedListAssociative(a, b, c, key, path);
    case OtherKind =>
  }

  lemma {:induction false} EntriesAssociative(a: seq<Entry>, b: seq<Entry>, c: seq<Entry>, path: string)
    requires Distinct(Keys(a)) && Distinct(Keys(b)) && Distinct(Keys(c))
    requires TidyEntries(a, path) && TidyEntries(b, path) && TidyEntries(c, path)
    requires SameKindEntries(a, b) && SameKindEntries(b, c) && SameKindEntries(a, c)
    ensures MergedEntries(MergedEntries(a, b, path), c, path) == MergedEntries(a, MergedEntries(b, c, path), path)
    decreases c, 1
  {
    OverAssociative(a, b, c, path);
    RestAssociative(a, b, c, path);
    Concat(Over(MergedEntries(a, b, path), c, path), Over(a, Inherited(b, c), path), Inherited(a, MergedEntries(b, c, path)));
  }

  lemma Concat(s: seq<Entry>, t: seq<Entry>, u: seq<Entry>)
    ensures s + (t + u) == s + t + u
  {
  }

  lemma RestAssociative(a: seq<Entry>, b: seq<Entry>, c: seq<Entry>, path: string)
    ensures Inherited(MergedEntries(a, b, path), c) == Over(a, Inherited(b, c), path) + Inherited(a, MergedEntries(b, c, path))
    ensures Over(a, MergedEntries(b, c, path), path) == Over(a, Over(b, c, path), path) + Over(a, Inherited(b, c), path)
  {
    OverConcat(a, Over(b, c, path), Inherited(b, c), path);
    InheritedConcat(Over(a, b, path), Inherited(a, b), c);
    InheritedOver(a, b, c, path);
    MergeKeyOrder(b, c, path);
    InheritedTwice(a, b, c, MergedEntries(b, c, path));
  }

  /** The entries of c, in both orders of merging. */
  lemma {:induction false} OverAssociative(a: seq<Entry>, b: seq<Entry>, c: seq<Entry>, path: string)
    requires Distinct(Keys(a)) && Distinct(Keys(b))
    requires TidyEntries(a, path) && TidyEntries(b, path) && TidyEntries(c, path)
    requires SameKindEntries(a, b) && SameKindEntries(b, c) && SameKindEntries(a, c)
    ensures Over(MergedEntries(a, b, path), c, path) == Over(a, Over(b, c, path), path)
    decreases c, 0
  {
    if c != [] {
      EntryAssociative(a, b, c[0], path);
      OverAssociative(a, b, c[1..], path);
      var over := Over(b, c[1..], path);
      assert ([MergedEntry(b, c[0], path)] + over)[1..] == over;
    }
  }

  lemma {:induction false} EntryAssociative(a: seq<Entry>, b: seq<Entry>, e: Entry, path: string)
    requires TidyEntries(a, path) && TidyEntries(b, path) && TidyEntry(e, path)
    requires SameKindEntries(a, b) && SameKindEntry(b, e) && SameKindEntry(a, e)
    ensures MergedEntry(MergedEntries(a, b, path), e, path) == MergedEntry(a, MergedEntry(b, e, path), path)
    decreases e
  {
    var key := Text(e.key);
    MergeKeyByKey(a, b, path, key);
    if Lookup(a, key).Some? {
      TidyLookup(a, path, key);
    }
    if Lookup(b, key).Some? {
      TidyLookup(b, path, key);
    }
    if Lookup(a, key).Some? && Lookup(b, key).Some? {
      SameKindsLookup(a, b, key);
      ValueAssociative(Lookup(a, key).value, Lookup(b, key).value, e.value, key, ChildPath(path, key));
    }
  }

  lemma OverConcat(parent: seq<Entry>, s: seq<Entry>, t: seq<Entry>, path: string)
    ensures Over(parent, s + t, path) == Over(parent, s, path) + Over(parent, t, path)
  {
    var whole, front, back := Over(parent, s + t, path), Over(parent, s, path), Over(parent, t, path);
    forall i | 0 <= i < |s + t|
      ensures whole[i] == (front + back)[i]
    {
      OverAt(parent, s + t, i, path);
      if i < |s| {
        OverAt(parent, s, i, path);
      } else {
        OverAt(parent, t, i - |s|, path);
      }
    }
    assert whole == front + back;
  }

  /** The entry, if it is inherited, and then the rest. */
  lemma InheritedCons(e: Entry, s: seq<Entry>, child: seq<Entry>)
    ensures Inherited([e] + s, child) == Inherited([e], child) + Inherited(s, child)
  {
    assert ([e] + s)[1..] == s && [e][1..] == [];
  }

  lemma {:induction false} InheritedConcat(s: seq<Entry>, t: seq<Entry>, child: seq<Entry>)
    ensures Inherited(s + t, child) == Inherited(s, child) + Inherited(t, child)
  {
    if s == [] {
      assert s + t == t;
    } else {
      InheritedConcat(s[1..], t, child);
      InheritedCons(s[0], s[1..], child);
      InheritedCons(s[0], s[1..] + t, child);
      assert s == [s[0]] + s[1..] && s + t == [s[0]] + (s[1..] + t);
      Concat(Inherited([s[0]], child), Inherited(s[1..], child), Inherited(t, child));
    }
  }

  /** The entries of b that c does not have. */
  lemma {:induction false} InheritedOver(a: seq<Entry>, b: seq<Entry>, c: seq<Entry>, path: string)
    ensures Inherited(Over(a, b, path), c) == Over(a, Inherited(b, c), path)
  {
    if b != [] {
      InheritedOver(a, b[1..], c, path);
      assert Over(a, b, path)[1..] == Over(a, b[1..], path);
      var rest := Inherited(b[1..], c);
      assert ([b[0]] + rest)[1..] == rest;
    }
  }

  /** The entries of a that neither b nor c has. */
  lemma {:induction false} InheritedTwice(a: seq<Entry>, b: seq<Entry>, c: seq<Entry>, bc: seq<Entry>)
    requires Keys(bc) == Keys(c) + Outside(Keys(b), Keys(c))
    ensures Inherited(Inherited(a, b), c) == Inherited(a, bc)
  {
    if a != [] {
      InheritedTwice(a[1..], b, c, bc);
      OutsideMembers(Keys(b), Keys(c), Text(a[0].key));
      var rest := Inherited(a[1..], b);
      assert ([a[0]] + rest)[1..] == rest;
    }
  }

  lemma {:induction false} OutsideMembers(s: seq<string>, keys: seq<string>, key: string)
    ensures key in Outside(s, keys) <==> key in s && key !in keys && !Withheld(key)
  {
    if s != [] {
      OutsideMembers(s[1..], keys, key);
      assert s == [s[0]] + s[1..];
    }
  }

  // ---- lists that decode stay so

  lemma {:induction false} TidyMergeableEntries(a: seq<Entry>, b: seq<Entry>, path: string)
    requires TidyEntries(a, path) && TidyEntries(b, path)
    ensures MergeableEntries(a, b, path)
    decreases b
  {
    if b != [] {
      TidyMergeableEntry(a, b[0], path);
      TidyMergeableEntries(a, b[1..], path);
    }
  }

  lemma {:induction false} TidyMergeableEntry(a: seq<Entry>, e: Entry, path: string)
    requires TidyEntries(a, path) && TidyEntry(e, path)
    ensures MergeableEntry(a, e, path)
    decreases e
  {
    var key := Text(e.key);
    if Lookup(a, key).Some? {
      TidyLookup(a, path, key);
      var p := Lookup(a, key).value;
      if p.Mapping? && e.value.Mapping? {
        TidyMergeableValue(p, e.value, key, ChildPath(path, key));
      }
    }
  }

  lemma {:induction false} TidyMergeableValue(p: Node, c: Node, key: string, path: string)
    requires p.Mapping? && c.Mapping? && Tidy(p, key, path) && Tidy(c, key, path)
    ensures Mergeable(p, c, path)
    decreases c
  {
    TidyMergeableEntries(p.entries, c.entries, path);
  }

  lemma {:induction false} MergedValueTidy(a: Node, b: Node, key: string, path: string)
    requires Tidy(a, key, path) && Tidy(b, key, path)
    ensures Tidy(MergedValue(a, b, key, path), key, path)
    ensures KindOf(MergedValue(a, b, key, path)) == KindOf(b)
    decreases b, 1
  {
    if a.Mapping? && b.Mapping? {
      OverTidy(a.entries, b.entries, path);
      InheritedTidy(a.entries, b.entries, path);
      TidyConcat(Over(a.entries, b.entries, path), Inherited(a.entries, b.entries), path);
      MergeKeyOrder(a.entries, b.entries, path);
      OutsideDistinct(Keys(a.entries), Keys(b.entries));
      DistinctConcat(Keys(b.entries), Outside(Keys(a.entries), Keys(b.entries)));
    } else if a.Sequence? && b.Sequence? {
      MergedListTidy(a, b, key, path);
    }
  }

  lemma DistinctConcat(s: seq<string>, t: seq<string>)
    requires Distinct(s) && Distinct(t) && forall k <- t :: k !in s
    ensures Distinct(s + t)
  {
    forall i, j | 0 <= i < |s| && 0 <= j < |t|
      ensures s[i] != t[j]
    {
      assert t[j] in t;
    }
  }

  lemma {:induction false} OverTidy(a: seq<Entry>, b: seq<Entry>, path: string)
    requires TidyEntries(a, path) && TidyEntries(b, path)
    ensures TidyEntries(Over(a, b, path), path)
    decreases b
  {
    if b != [] {
      EntryTidy(a, b[0], path);
      OverTidy(a, b[1..], path);
    }
  }

  lemma {:induction false} EntryTidy(a: seq<Entry>, e: Entry, path: string)
    requires TidyEntries(a, path) && TidyEntry(e, path)
    ensures TidyEntry(MergedEntry(a, e, path), path)
    decreases e
  {
    var key := Text(e.key);
    if Lookup(a, key).Some? {
      TidyLookup(a, path, key);
      MergedValueTidy(Lookup(a, key).value, e.value, key, ChildPath(path, key));
    }
  }

  lemma {:induction false} InheritedTidy(a: seq<Entry>, b: seq<Entry>, path: string)
    requires TidyEntries(a, path)
    ensures TidyEntries(Inherited(a, b), path)
  {
    if a != [] {
      InheritedTidy(a[1..], b, path);
    }
  }

  lemma {:induction false} TidyConcat(s: seq<Entry>, t: seq<Entry>, path: string)
    requires TidyEntries(s, path) && TidyEntries(t, path)
    ensures TidyEntries(s + t, path)
  {
    if s == [] {
      assert s + t == t;
    } else {
      TidyConcat(s[1..], t, path);
      assert (s + t)[1..] == s[1..] + t;
    }
  }

  lemma {:induction false} OutsideDistinct(s: seq<string>, keys: seq<string>)
    requires Distinct(s)
    ensures Distinct(Outside(s, keys))
    ensures forall k <- Outside(s, keys) :: k !in keys && k in s
  {
    if s != [] {
      OutsideDistinct(s[1..], keys);
      assert s == [s[0]] + s[1..];
      assert s[0] !in s[1..];
    }
  }

  /** Along a chain of templates it makes no difference, not even for the order of the keys,
      which two neighbours are merged first, and neither order fails. */
  lemma MergeAssociative(a: Node, b: Node, c: Node)
    requires a.Mapping? && b.Mapping? && c.Mapping?
    requires Tidy(a, "", "") && Tidy(b, "", "") && Tidy(c, "", "")
    requires SameKinds(a, b) && SameKinds(b, c) && SameKinds(a, c)
    ensures Merged(Merged(a, b, ""), c, "") == Merged(a, Merged(b, c, ""), "")
    ensures Mergeable(a, b, "") && Mergeable(Merged(a, b, ""), c, "")
    ensures Mergeable(b, c, "") && Mergeable(a, Merged(b, c, ""), "")
  {
    ValueAssociative(a, b, c, "", "");
    MergedValueTidy(a, b, "", "");
    MergedValueTidy(b, c, "", "");
    TidyMergeableValue(a, b, "", "");
    TidyMergeableValue(b, c, "", "");
    TidyMergeableValue(Merged(a, b, ""), c, "", "");
    TidyMergeableValue(a, Merged(b, c, ""), "", "");
  }
}
