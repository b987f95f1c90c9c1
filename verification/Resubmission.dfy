/** Submitting a resolved view again as the blueprint's own content
    (internal/blueprint/resolve.go:239-249). */
module Resubmission {
  import opened Prelude
  import opened Yaml
  import opened Values
  import opened MergeStrategy
  import opened Merge
  import opened MergeLaws
  import opened CelDisplay
  import opened Revision
  import Scripts = InitScripts

  // ---- lists the codec keeps

  /** No scalar value below n, aliases resolved, carries a tag such as !cel. */
  predicate PlainTags(n: Node)
    decreases n, 0
  {
    match n
    case Scalar(tag, _) => PlainTag(tag) == tag
    case Mapping(_, entries) => PlainTagsInEntries(entries)
    case Sequence(_, items) => PlainTagsInAll(items)
    case Document(_) => true
    case Alias(_, target) => PlainTags(target)
  }

  predicate PlainTagsInAll(s: seq<Node>)
    decreases s
  {
    s == [] || (PlainTags(s[0]) && PlainTagsInAll(s[1..]))
  }

  predicate PlainTagsInEntries(s: seq<Entry>)
    decreases s
  {
    s == [] || (PlainTagsInEntry(s[0]) && PlainTagsInEntries(s[1..]))
  }

  predicate PlainTagsInEntry(e: Entry)
    decreases e
  {
    PlainTags(e.value)
  }

  function FieldContents(s: seq<Pair<Keyed>>): (r: seq<Pair<Content>>)
    ensures |r| == |s| && forall i :: 0 <= i < |s| ==> r[i] == Pair(s[i].key, Canon(Encode(s[i].value.value), false))
  {
    if s == [] then [] else [Pair(s[0].key, Canon(Encode(s[0].value.value), false))] + FieldContents(s[1..])
  }

  lemma {:induction false} KeptFields(s: seq<Pair<Keyed>>)
    ensures Kept(EncodeFields(s), false) == FieldContents(s)
  {
    if s != [] {
      KeptFields(s[1..]);
      assert EncodeFields(s)[1..] == EncodeFields(s[1..]);
      assert EncodeFields(s)[0].value == EncodeKeyed(s[0].value) == Encode(s[0].value.value);
    }
  }

  lemma {:induction false} InsertFieldContents(p: Pair<Keyed>, s: seq<Pair<Keyed>>)
    ensures FieldContents(Insert(p, s)) == Insert(Pair(p.key, Canon(Encode(p.value.value), false)), FieldContents(s))
  {
    if s == [] || !Before(s[0].key, p.key) {
      var x := Pair(p.key, Canon(Encode(p.value.value), false));
      assert ([p] + s)[0] == p && ([p] + s)[1..] == s;
      assert FieldContents([p] + s) == [x] + FieldContents(s);
      assert s != [] ==> FieldContents(s)[0].key == s[0].key;
      assert Insert(x, FieldContents(s)) == [x] + FieldContents(s);
    } else {
      InsertFieldContents(p, s[1..]);
      var t := Insert(p, s[1..]);
      assert ([s[0]] + t)[1..] == t;
      assert FieldContents(s)[1..] == FieldContents(s[1..]);
    }
  }

  lemma {:induction false} SortFieldContents(s: seq<Pair<Keyed>>)
    ensures FieldContents(SortByKey(s)) == SortByKey(FieldContents(s))
  {
    if s != [] {
      SortFieldContents(s[1..]);
      InsertFieldContents(s[0], SortByKey(s[1..]));
    }
  }

  lemma SortTwice<T>(s: seq<Pair<T>>)
    ensures SortByKey(SortByKey(s)) == SortByKey(s)
  {
    forall key
      ensures ValuesOf(SortByKey(s), key) == ValuesOf(s, key)
    {
      SortIsStable(s, key);
    }
    SortedAlike(SortByKey(s), s);
  }

  /** Decoding to plain values and encoding keeps the content exactly where every scalar has
      a tag the decoder knows: in particular, no CEL expression survives it. */
  lemma {:induction false} CodecKeeps(n: Node)
    requires Decode(n).Some?
    ensures Canon(Encode(Decode(n).value), false) == Canon(n, false) <==> PlainTags(n)
    decreases n, 0
  {
    match n
    case Scalar(_, _) =>
    case Alias(_, target) => CodecKeeps(target);
    case Sequence(_, items) => CodecKeepsAll(items);
    case Mapping(_, entries) =>
      CodecKeepsEntries(entries);
      CodecKeepsMapping(entries);
  }

  lemma EncodedFieldsSorted(fields: seq<Pair<Keyed>>)
    ensures SortByKey(Kept(EncodeFields(SortByKey(fields)), false)) == SortByKey(FieldContents(fields))
  {
    KeptFields(SortByKey(fields));
    SortFieldContents(fields);
    SortTwice(FieldContents(fields));
  }

  lemma CodecKeepsMapping(entries: seq<Entry>)
    requires Distinct(Keys(entries)) && ScalarKeys(entries) && DecodeEntries(entries).Some?
    ensures var fields := DecodeEntries(entries).value;
            SortByKey(Kept(EncodeFields(SortByKey(fields)), false)) == SortByKey(Kept(entries, false))
            <==> FieldContents(fields) == Kept(entries, false)
  {
    var fields := DecodeEntries(entries).value;
    EncodedFieldsSorted(fields);
    DecodedKeys(entries);
    SortTellsApart(FieldContents(fields), Kept(entries, false));
  }

  lemma DecodedKeys(entries: seq<Entry>)
    requires Distinct(Keys(entries)) && ScalarKeys(entries) && DecodeEntries(entries).Some?
    ensures var c, k := FieldContents(DecodeEntries(entries).value), Kept(entries, false);
            |c| == |k| && (forall i :: 0 <= i < |c| ==> c[i].key == k[i].key)
            && forall i, j :: 0 <= i < j < |c| ==> c[i].key != c[j].key
  {
    KeptKeys(entries);
    NamedApart(Kept(entries, false), Keys(entries));
    NamedApart(FieldContents(DecodeEntries(entries).value), Keys(entries));
  }

  lemma NamedApart(s: seq<Pair<Content>>, keys: seq<string>)
    requires |s| == |keys| && Distinct(keys) && forall i :: 0 <= i < |s| ==> s[i].key == keys[i]
    ensures forall i, j :: 0 <= i < j < |s| ==> s[i].key != s[j].key
  {
  }

  lemma {:induction false} CodecKeepsAll(s: seq<Node>)
    requires DecodeAll(s).Some?
    ensures CanonAll(EncodeAll(DecodeAll(s).value), false) == CanonAll(s, false) <==> PlainTagsInAll(s)
    decreases s
  {
    if s != [] {
      CodecKeeps(s[0]);
      CodecKeepsAll(s[1..]);
      var v := DecodeAll(s).value;
      assert v[0] == Decode(s[0]).value && v[1..] == DecodeAll(s[1..]).value;
      var c, d := CanonAll(EncodeAll(v), false), CanonAll(s, false);
      assert EncodeAll(v)[1..] == EncodeAll(v[1..]);
      assert c[0] == Canon(Encode(v[0]), false) && c[1..] == CanonAll(EncodeAll(v[1..]), false);
      assert d[0] == Canon(s[0], false) && d[1..] == CanonAll(s[1..], false);
      HeadAndTail(c, d);
    }
  }

  lemma HeadAndTail<T>(s: seq<T>, t: seq<T>)
    requires s != [] && t != []
    ensures s == t <==> s[0] == t[0] && s[1..] == t[1..]
  {
    assert s == [s[0]] + s[1..] && t == [t[0]] + t[1..];
  }

  lemma {:induction false} KeptKeys(s: seq<Entry>)
    ensures |Kept(s, false)| == |s|
    ensures forall i :: 0 <= i < |s| ==> Kept(s, false)[i] == Pair(Text(s[i].key), Canon(s[i].value, false))
  {
    if s != [] {
      KeptKeys(s[1..]);
    }
  }

  lemma {:induction false} CodecKeepsEntries(s: seq<Entry>)
    requires ScalarKeys(s) && DecodeEntries(s).Some?
    ensures FieldContents(DecodeEntries(s).value) == Kept(s, false) <==> PlainTagsInEntries(s)
    decreases s
  {
    if s != [] {
      CodecKeepsEntry(s[0]);
      CodecKeepsEntries(s[1..]);
      var v := DecodeEntries(s).value;
      assert v[0] == DecodeEntry(s[0]).value && v[1..] == DecodeEntries(s[1..]).value;
      var c, d := FieldContents(v), Kept(s, false);
      assert c[1..] == FieldContents(v[1..]);
      assert d[0] == CanonEntry(s[0]) && d[1..] == Kept(s[1..], false);
      HeadAndTail(c, d);
    }
  }

  lemma {:induction false} CodecKeepsEntry(e: Entry)
    requires e.key.Scalar? && DecodeEntry(e).Some?
    ensures Canon(Encode(DecodeEntry(e).value.value.value), false) == Canon(e.value, false) <==> PlainTagsInEntry(e)
    decreases e
  {
    CodecKeeps(e.value);
  }

  // ---- merging a value with itself

  /** Every list below n that a strategy merges is plain. */
  predicate PlainLists(n: Node, key: string, path: string)
    decreases n, 0
  {
    match n
    case Mapping(_, entries) => PlainListsInEntries(entries, path)
    case Sequence(_, _) => StrategyFor(key, path).Some? ==> PlainTags(n)
    case _ => true
  }

  predicate PlainListsInEntries(s: seq<Entry>, path: string)
    decreases s
  {
    s == [] || (PlainListsInEntry(s[0], path) && PlainListsInEntries(s[1..], path))
  }

  predicate PlainListsInEntry(e: Entry, path: string)
    decreases e
  {
    PlainLists(e.value, Text(e.key), ChildPath(path, Text(e.key)))
  }

  lemma ScriptsMergedWithThemselves(s: seq<Value>)
    requires Scripts.DistinctNames(s)
    ensures Scripts.Merge(s, s) == s
  {
    Scripts.MergeOfDistinct(s, s);
    forall i | 0 <= i < |s|
      ensures Scripts.Choose(s[i], Scripts.ByName(s)) == s[i]
    {
      if Scripts.Named(s[i]) {
        ByNameAt(s, i);
      }
    }
    assert Scripts.Override(s, Scripts.ByName(s)) == s;
    NoOthers(s, Scripts.ByName(s).Keys);
  }

  lemma {:induction false} ByNameAt(s: seq<Value>, i: nat)
    requires i < |s| && Scripts.DistinctNames(s) && Scripts.Named(s[i])
    ensures Scripts.ScriptName(s[i]).value in Scripts.ByName(s)
    ensures Scripts.ByName(s)[Scripts.ScriptName(s[i]).value] == s[i]
  {
    if i == 0 {
      Scripts.FirstNameIsNew(s);
    } else {
      ByNameAt(s[1..], i - 1);
    }
  }

  lemma {:induction false} NoOthers(s: seq<Value>, names: set<string>)
    requires Scripts.ByName(s).Keys <= names
    ensures Scripts.Others(s, names) == []
  {
    if s != [] {
      if Scripts.Named(s[0]) {
        Scripts.NameKnown(s, 0);
      }
      NoOthers(s[1..], names);
    }
  }

  /** Two mappings with the same distinct keys in the same places mean the same exactly when
      their values do, those under ignored keys apart. */
  lemma {:induction false} KeptAlike(s: seq<Entry>, t: seq<Entry>, top: bool)
    requires Keys(s) == Keys(t)
    ensures Kept(s, top) == Kept(t, top) <==>
            forall i :: 0 <= i < |s| ==> (top && Ignored(Text(s[i].key))) || Canon(s[i].value, false) == Canon(t[i].value, false)
  {
    if s != [] {
      assert Keys(s)[0] == Keys(t)[0];
      assert Keys(s)[1..] == Keys(s[1..]) && Keys(t)[1..] == Keys(t[1..]);
      KeptAlike(s[1..], t[1..], top);
      if !(top && Ignored(Text(s[0].key))) {
        var k, l := Kept(s, top), Kept(t, top);
        assert k[1..] == Kept(s[1..], top) && l[1..] == Kept(t[1..], top);
        HeadAndTail(k, l);
      }
      assert forall i :: 0 < i < |s| ==> s[i] == s[1..][i - 1] && t[i] == t[1..][i - 1];
    }
  }

  lemma {:induction false} KeptFrom(s: seq<Entry>, top: bool)
    ensures forall p <- Kept(s, top) :: p.key in Keys(s)
  {
    if s != [] {
      KeptFrom(s[1..], top);
      assert Keys(s) == [Text(s[0].key)] + Keys(s[1..]);
    }
  }

  ghost predicate KeysApart<T>(s: seq<Pair<T>>) {
    forall i, j :: 0 <= i < j < |s| ==> s[i].key != s[j].key
  }

  lemma ApartCons<T>(p: Pair<T>, t: seq<Pair<T>>)
    requires KeysApart(t) && forall q <- t :: q.key != p.key
    ensures KeysApart([p] + t)
  {
  }

  lemma {:induction false} KeptDistinct(s: seq<Entry>, top: bool)
    requires Distinct(Keys(s))
    ensures KeysApart(Kept(s, top))
  {
    if s != [] {
      TailDistinct(s);
      KeptDistinct(s[1..], top);
      KeptFrom(s[1..], top);
      ApartCons(CanonEntry(s[0]), Kept(s[1..], top));
    }
  }

  lemma {:induction false} KeptSameKeys(s: seq<Entry>, t: seq<Entry>, top: bool)
    requires Keys(s) == Keys(t)
    ensures |Kept(s, top)| == |Kept(t, top)|
    ensures forall i :: 0 <= i < |Kept(s, top)| ==> Kept(s, top)[i].key == Kept(t, top)[i].key
  {
    if s != [] {
      assert Keys(s)[0] == Keys(t)[0];
      assert Keys(s)[1..] == Keys(s[1..]) && Keys(t)[1..] == Keys(t[1..]);
      KeptSameKeys(s[1..], t[1..], top);
    }
  }

  lemma SameKeysAlike(s: seq<Entry>, t: seq<Entry>, top: bool)
    requires Keys(s) == Keys(t) && Distinct(Keys(s))
    ensures Record(SortByKey(Kept(s, top))) == Record(SortByKey(Kept(t, top))) <==>
            forall i :: 0 <= i < |s| ==> (top && Ignored(Text(s[i].key))) || Canon(s[i].value, false) == Canon(t[i].value, false)
  {
    KeptDistinct(s, top);
    KeptSameKeys(s, t, top);
    SortTellsApart(Kept(s, top), Kept(t, top));
    KeptAlike(s, t, top);
  }

  // ---- resubmission

  /** Everywhere the child inherits something whole, the lists with a strategy are plain. */
  predicate InheritsPlainLists(p: Node, c: Node, path: string)
    decreases p, 0
  {
    p.Mapping? && c.Mapping? ==> InheritsPlainEntries(p.entries, c.entries, path)
  }

  predicate InheritsPlainEntries(s: seq<Entry>, c: seq<Entry>, path: string)
    decreases s
  {
    s == [] || (InheritsPlainEntry(s[0], c, path) && InheritsPlainEntries(s[1..], c, path))
  }

  predicate InheritsPlainEntry(e: Entry, c: seq<Entry>, path: string)
    decreases e
  {
    var key := Text(e.key);
    var v := Lookup(c, key);
    if v.Some? then InheritsPlainLists(e.value, v.value, ChildPath(path, key))
    else Withheld(key) || PlainLists(e.value, key, ChildPath(path, key))
  }

  /** Merging the merge with the parent once more keeps its content. */
  predicate Settles(p: Node, m: Node, key: string, path: string) {
    Canon(MergedValue(p, m, key, path), false) == Canon(m, false)
  }

  predicate SettlesAt(e: Entry, c: seq<Entry>, path: string) {
    var key := Text(e.key);
    var v := Lookup(c, key);
    var at := ChildPath(path, key);
    if v.Some? then Settles(e.value, MergedValue(e.value, v.value, key, at), key, at)
    else Withheld(key) || Settles(e.value, e.value, key, at)
  }

  lemma {:induction false} SelfSettles(n: Node, key: string, path: string)
    requires Tidy(n, key, path)
    ensures Settles(n, n, key, path) <==> PlainLists(n, key, path)
    decreases n, 0
  {
    match n
    case Mapping(_, entries) =>
      SelfSettlesEntries(entries, path);
      OverItself(entries, path);
      var m := MergedEntries(entries, entries, path);
      SameKeysAlike(m, entries, false);
      forall i | 0 <= i < |entries|
        ensures Settles(entries[i].value, entries[i].value, Text(entries[i].key), ChildPath(path, Text(entries[i].key)))
                <==> Canon(m[i].value, false) == Canon(entries[i].value, false)
      {
        assert Text(entries[i].key) == Keys(entries)[i];
      }
      assert MergedValue(n, n, key, path) == Mapping("!!map", m);
    case Sequence(_, _) => SelfSettlesList(n, key, path);
    case _ =>
  }

  lemma SelfSettlesList(n: Node, key: string, path: string)
    requires n.Sequence? && TidyList(n, key, path)
    ensures Settles(n, n, key, path) <==> (StrategyFor(key, path).Some? ==> PlainTags(n))
  {
    if StrategyFor(key, path).Some? {
      if StrategyFor(key, path) == Some(ByScriptName) {
        ScriptsMergedWithThemselves(Decode(n).value.items);
      }
      CodecKeeps(n);
    }
  }

  lemma {:induction false} SelfSettlesEntries(s: seq<Entry>, path: string)
    requires TidyEntries(s, path)
    ensures PlainListsInEntries(s, path) <==>
            forall i :: 0 <= i < |s| ==> Settles(s[i].value, s[i].value, Text(s[i].key), ChildPath(path, Text(s[i].key)))
    decreases s
  {
    if s != [] {
      SelfSettlesEntry(s[0], path);
      SelfSettlesEntries(s[1..], path);
      assert forall i :: 0 < i < |s| ==> s[i] == s[1..][i - 1];
    }
  }

  lemma {:induction false} SelfSettlesEntry(e: Entry, path: string)
    requires TidyEntry(e, path)
    ensures Settles(e.value, e.value, Text(e.key), ChildPath(path, Text(e.key))) <==> PlainListsInEntry(e, path)
    decreases e
  {
    SelfSettles(e.value, Text(e.key), ChildPath(path, Text(e.key)));
  }

  lemma {:induction false} NothingToInherit(p: seq<Entry>, m: seq<Entry>)
    requires forall e <- p :: Text(e.key) in Keys(m) || Withheld(Text(e.key))
    ensures Inherited(p, m) == []
  {
    if p != [] {
      assert p[0] in p;
      NothingToInherit(p[1..], m);
    }
  }

  lemma OverItself(s: seq<Entry>, path: string)
    requires Distinct(Keys(s))
    ensures var m := MergedEntries(s, s, path);
            && Keys(m) == Keys(s)
            && forall i :: 0 <= i < |s| ==>
                 var key := Text(s[i].key);
                 m[i].value == MergedValue(s[i].value, s[i].value, key, ChildPath(path, key))
  {
    forall e | e in s
      ensures Text(e.key) in Keys(s)
    {
      var i :| 0 <= i < |s| && s[i] == e;
      assert Keys(s)[i] == Text(e.key);
    }
    NothingToInherit(s, s);
    forall i | 0 <= i < |s|
      ensures var key := Text(s[i].key);
              Over(s, s, path)[i].value == MergedValue(s[i].value, s[i].value, key, ChildPath(path, key))
    {
      OverAt(s, s, i, path);
      LookupAt(s, i);
    }
    assert MergedEntries(s, s, path) == Over(s, s, path);
  }

  lemma MergedDistinct(p: seq<Entry>, c: seq<Entry>, path: string)
    requires Distinct(Keys(p)) && Distinct(Keys(c))
    ensures Distinct(Keys(MergedEntries(p, c, path)))
    ensures forall k :: k in Keys(MergedEntries(p, c, path)) <==> k in Keys(c) || (k in Keys(p) && !Withheld(k))
  {
    MergeKeyOrder(p, c, path);
    OutsideDistinct(Keys(p), Keys(c));
    DistinctConcat(Keys(c), Outside(Keys(p), Keys(c)));
    forall k
      ensures k in Keys(MergedEntries(p, c, path)) <==> k in Keys(c) || (k in Keys(p) && !Withheld(k))
    {
      OutsideMembers(Keys(p), Keys(c), k);
    }
  }

  /** Merging with the parent once more adds no key and moves none. */
  lemma MergedTwice(p: seq<Entry>, c: seq<Entry>, path: string)
    requires Distinct(Keys(p)) && Distinct(Keys(c))
    ensures var m := MergedEntries(p, c, path);
            MergedEntries(p, m, path) == Over(p, m, path) && Keys(MergedEntries(p, m, path)) == Keys(m)
  {
    var m := MergedEntries(p, c, path);
    MergedDistinct(p, c, path);
    forall e | e in p
      ensures Text(e.key) in Keys(p)
    {
      var i :| 0 <= i < |p| && p[i] == e;
      assert Keys(p)[i] == Text(e.key);
    }
    NothingToInherit(p, m);
    assert Over(p, m, path) + [] == Over(p, m, path);
  }

  ghost predicate SameAt(p: seq<Entry>, m: seq<Entry>, path: string, i: nat)
    requires i < |m|
  {
    Canon(Over(p, m, path)[i].value, false) == Canon(m[i].value, false)
  }

  lemma EntrySettles(p: seq<Entry>, c: seq<Entry>, path: string, i: nat, j: nat)
    requires Distinct(Keys(p)) && Distinct(Keys(c))
    requires var m := MergedEntries(p, c, path);
             i < |m| && j < |p| && Text(m[i].key) == Text(p[j].key)
    ensures SameAt(p, MergedEntries(p, c, path), path, i) <==> SettlesAt(p[j], c, path)
  {
    var m := MergedEntries(p, c, path);
    var key := Text(p[j].key);
    MergedDistinct(p, c, path);
    LookupAt(m, i);
    LookupAt(p, j);
    MergeKeyByKey(p, c, path, key);
    OverAt(p, m, i, path);
    assert Keys(m)[i] == key;
    LookupNone(c, key);
  }

  lemma AllSettle(p: seq<Entry>, c: seq<Entry>, path: string)
    requires Distinct(Keys(p)) && Distinct(Keys(c))
    ensures var m := MergedEntries(p, c, path);
            (forall i :: 0 <= i < |m| ==> SameAt(p, m, path, i)) <==> (forall j :: 0 <= j < |p| ==> SettlesAt(p[j], c, path))
  {
    var m := MergedEntries(p, c, path);
    MergedDistinct(p, c, path);
    if forall i :: 0 <= i < |m| ==> SameAt(p, m, path, i) {
      forall j | 0 <= j < |p|
        ensures SettlesAt(p[j], c, path)
      {
        var key := Text(p[j].key);
        assert Keys(p)[j] == key;
        LookupNone(c, key);
        if key in Keys(m) {
          var i :| 0 <= i < |m| && Keys(m)[i] == key;
          EntrySettles(p, c, path, i, j);
        }
      }
    }
    if forall j :: 0 <= j < |p| ==> SettlesAt(p[j], c, path) {
      forall i | 0 <= i < |m|
        ensures SameAt(p, m, path, i)
      {
        var key := Text(m[i].key);
        OverAt(p, m, i, path);
        LookupNone(p, key);
        if key in Keys(p) {
          var j :| 0 <= j < |p| && Keys(p)[j] == key;
          EntrySettles(p, c, path, i, j);
        }
      }
    }
  }

  lemma {:induction false} EntriesSettle(s: seq<Entry>, c: seq<Entry>, path: string)
    requires TidyEntries(s, path) && TidyEntries(c, path)
    ensures (forall j :: 0 <= j < |s| ==> SettlesAt(s[j], c, path)) <==> InheritsPlainEntries(s, c, path)
    decreases s
  {
    if s != [] {
      EntrySettlesIff(s[0], c, path);
      EntriesSettle(s[1..], c, path);
      if InheritsPlainEntries(s, c, path) {
        assert forall j :: 0 < j < |s| ==> s[j] == s[1..][j - 1];
      } else if SettlesAt(s[0], c, path) {
        var j :| 0 <= j < |s[1..]| && !SettlesAt(s[1..][j], c, path);
        assert s[j + 1] == s[1..][j];
      } else {
        assert !SettlesAt(s[0], c, path);
      }
    }
  }

  lemma {:induction false} EntrySettlesIff(e: Entry, c: seq<Entry>, path: string)
    requires TidyEntry(e, path) && TidyEntries(c, path)
    ensures SettlesAt(e, c, path) <==> InheritsPlainEntry(e, c, path)
    decreases e
  {
    var key := Text(e.key);
    if Lookup(c, key).Some? {
      TidyLookup(c, path, key);
      ValueSettles(e.value, Lookup(c, key).value, key, ChildPath(path, key));
    } else {
      SelfSettles(e.value, key, ChildPath(path, key));
    }
  }

  lemma {:induction false} ValueSettles(p: Node, c: Node, key: string, path: string)
    requires Tidy(p, key, path) && Tidy(c, key, path)
    ensures Settles(p, MergedValue(p, c, key, path), key, path) <==> InheritsPlainLists(p, c, path)
    decreases p, 0
  {
    if p.Mapping? && c.Mapping? {
      EntriesSettle(p.entries, c.entries, path);
      MappingSettles(p.entries, c.entries, path, false);
      var m := MergedEntries(p.entries, c.entries, path);
      assert MergedValue(p, c, key, path) == Mapping("!!map", m);
      assert MergedValue(p, Mapping("!!map", m), key, path) == Mapping("!!map", MergedEntries(p.entries, m, path));
    } else if p.Sequence? && c.Sequence? {
      ListSettles(p, c, key, path);
    }
  }

  lemma MappingSettles(p: seq<Entry>, c: seq<Entry>, path: string, top: bool)
    requires Distinct(Keys(p)) && Distinct(Keys(c)) && TidyEntries(p, path)
    ensures var m := MergedEntries(p, c, path);
            Canon(Mapping("!!map", MergedEntries(p, m, path)), top) == Canon(Mapping("!!map", m), top)
            <==> forall j :: 0 <= j < |p| ==> SettlesAt(p[j], c, path)
  {
    var m := MergedEntries(p, c, path);
    MergedTwice(p, c, path);
    MergedDistinct(p, c, path);
    AllSettle(p, c, path);
    SameKeysAlike(Over(p, m, path), m, top);
    IgnoredSettle(p, m, path, top);
  }

  /** What is ignored at the top is a plain value, which settles anyway. */
  lemma IgnoredSettle(p: seq<Entry>, m: seq<Entry>, path: string, top: bool)
    requires TidyEntries(p, path)
    ensures var over := Over(p, m, path);
            (forall i :: 0 <= i < |over| ==>
               (top && Ignored(Text(over[i].key))) || Canon(over[i].value, false) == Canon(m[i].value, false))
            <==> forall i :: 0 <= i < |m| ==> SameAt(p, m, path, i)
  {
    var over := Over(p, m, path);
    forall i | 0 <= i < |m| && Ignored(Text(over[i].key))
      ensures SameAt(p, m, path, i)
    {
      OverAt(p, m, i, path);
      if Lookup(p, Text(m[i].key)).Some? {
        TidyLookup(p, path, Text(m[i].key));
      }
    }
    if forall i :: 0 <= i < |m| ==> SameAt(p, m, path, i) {
      forall i | 0 <= i < |over|
        ensures Canon(over[i].value, false) == Canon(m[i].value, false)
      {
        assert SameAt(p, m, path, i);
      }
    }
  }

  lemma ListSettles(p: Node, c: Node, key: string, path: string)
    requires p.Sequence? && c.Sequence? && TidyList(p, key, path) && TidyList(c, key, path)
    ensures MergedValue(p, MergedValue(p, c, key, path), key, path) == MergedValue(p, c, key, path)
  {
    MergedListTidy(p, c, key, path);
    if StrategyFor(key, path) == Some(ByScriptName) {
      var ps, cs := Decode(p).value.items, Decode(c).value.items;
      Scripts.MergeIsAssociative(ps, ps, cs);
      ScriptsMergedWithThemselves(ps);
    }
  }

  /** A resolved view shown, read back and submitted as the blueprint's own content resolves
      to the same content and revision, exactly when no list that a strategy merges is
      inherited with a CEL expression in it. */
  lemma ResubmissionIsStable(p: Node, c: Node)
    requires p.Mapping? && c.Mapping? && Tidy(p, "", "") && Tidy(c, "", "")
    requires NoLookalike(Merged(p, c, ""))
    ensures var view := Merged(p, c, "");
            var again := Merged(p, Restore(Display(view)), "");
            && (Canon(again, true) == Canon(view, true) <==> InheritsPlainLists(p, c, ""))
            && (InheritsPlainLists(p, c, "") ==> Stream(Some(again)) == Stream(Some(view)))
  {
    RestoreDisplay(Merged(p, c, ""));
    EntriesSettle(p.entries, c.entries, "");
    MappingSettles(p.entries, c.entries, "", true);
  }

  function AccessModes(mode: Node): Node {
    Sequence("!!seq", [mode])
  }

  function ClaimSpec(mode: Node): Node {
    Mapping("!!map", [Entry(Scalar("!!str", "accessModes"), AccessModes(mode))])
  }

  function Claiming(mode: Node): Node {
    Mapping("!!map", [Entry(Scalar("!!str", "claimSpec"), ClaimSpec(mode))])
  }

  lemma CelIsNoPlainTag()
    ensures !Core("!cel") && PlainTag("!cel") != "!cel"
  {
    assert "!cel"[1] == 'c' && "!!str"[1] == '!';
    forall tag | tag in ["!!int", "!!float", "!!bool", "!!null", "!!timestamp"]
      ensures tag[1] == '!'
    {
    }
  }

  lemma NotPlain(n: Node, key: string, path: string)
    requires (n.Sequence? && StrategyFor(key, path).Some? && !PlainTags(n))
             || (n.Mapping? && !PlainListsInEntries(n.entries, path))
    ensures !PlainLists(n, key, path)
  {
  }

  /** The list of access modes is merged by a strategy, so an expression inherited in it
      turns into a plain string when the view is submitted again. */
  lemma InheritedExpressionIsLost(expression: string)
    ensures var p, c := Claiming(Scalar("!cel", expression)), Mapping("!!map", []);
            var view := Merged(p, c, "");
            && Tidy(p, "", "") && !InheritsPlainLists(p, c, "")
            && Restore(Display(view)) == view
            && Canon(Merged(p, Restore(Display(view)), ""), true) != Canon(view, true)
  {
    var p, c := Claiming(Scalar("!cel", expression)), Mapping("!!map", []);
    ListIsNotPlain(expression);
    ViewIsTheParent(expression);
    RestoreDisplay(p);
    ResubmissionIsStable(p, c);
  }

  lemma ViewIsTheParent(expression: string)
    ensures var p := Claiming(Scalar("!cel", expression));
            Merged(p, Mapping("!!map", []), "") == p && NoLookalike(p)
  {
    var mode := Scalar("!cel", expression);
    var p := Claiming(mode);
    var e := p.entries[0];
    assert "claimSpec"[0] == 'c' && "accessModes"[0] == 'a' && DISPLAY_PREFIX[0] == '!' && TAG_PREFIX[0] == '!';
    assert !Withheld("claimSpec");
    assert p.entries == [e] && p.entries[1..] == [];
    assert Inherited(p.entries, []) == [e];
    var spec := ClaimSpec(mode);
    assert NoLookalikes(AccessModes(mode).items) by {
      assert AccessModes(mode).items[1..] == [];
    }
    assert NoLookalikeEntries(spec.entries) by {
      assert spec.entries[1..] == [] && NoLookalike(AccessModes(mode));
    }
    assert NoLookalikeEntry(e) by {
      assert e.value == spec && NoLookalike(spec);
    }
    assert NoLookalikeEntries(p.entries);
  }

  lemma ListIsNotPlain(expression: string)
    ensures var p := Claiming(Scalar("!cel", expression));
            Tidy(p, "", "") && !InheritsPlainLists(p, Mapping("!!map", []), "")
  {
    var mode := Scalar("!cel", expression);
    var list, spec := AccessModes(mode), ClaimSpec(mode);
    assert StrategyFor("accessModes", ACCESS_MODES) == Some(ChildWins) by {
      assert ACCESS_MODES[0] != INIT_SCRIPTS[0];
    }
    CelIsNoPlainTag();
    assert !PlainTags(mode) && list.items[0] == mode;
    assert !PlainTagsInAll(list.items);
    assert !PlainTags(list);
    assert Decode(mode) == Some(Str(expression));
    assert ChildPath("claimSpec", "accessModes") == ACCESS_MODES;
    assert DecodeAll(list.items) == Some([Str(expression)]) by {
      assert list.items[1..] == [];
      assert [Str(expression)] + [] == [Str(expression)];
    }
    NotPlain(list, "accessModes", ACCESS_MODES);
    assert Tidy(list, "accessModes", ACCESS_MODES);
    assert TidyEntry(spec.entries[0], "claimSpec") && !PlainListsInEntry(spec.entries[0], "claimSpec");
    assert !PlainListsInEntries(spec.entries, "claimSpec");
    NotPlain(spec, "claimSpec", "claimSpec");
    assert Tidy(spec, "claimSpec", "claimSpec");
    assert TidyEntry(Claiming(mode).entries[0], "");
    assert !InheritsPlainEntry(Claiming(mode).entries[0], [], "");
  }
}
