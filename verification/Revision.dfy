/** The canonical byte stream behind a blueprint's revision (internal/blueprint/revision.go).
    SHA-256 is left out: two revisions are taken to agree when their streams do. */
module Revision {
  import opened Prelude
  import opened Yaml

  const SALT := "k8shell-blueprint-revision/v1"

  /** What a node means to its revision: aliases resolved, keys reduced to their text, the
      tags of mappings and sequences dropped. Nothing stands for a missing root. */
  datatype Content =
    | Leaf(tag: string, value: string)
    | Record(pairs: seq<Pair<Content>>)
    | List(items: seq<Content>)
    | Documents(children: seq<Content>)
    | Nothing

  predicate Ignored(key: string) {
    key == "description" || key == "isTemplate"
  }

  function Canon(n: Node, top: bool): Content
    decreases n, 0
  {
    match n
    case Scalar(tag, value) => Leaf(tag, value)
    case Mapping(_, entries) => Record(SortByKey(Kept(entries, top)))
    case Sequence(_, items) => List(CanonAll(items, false))
    case Document(children) => Documents(CanonAll(children, top))
    case Alias(_, target) => Canon(target, top)
  }

  function CanonAll(s: seq<Node>, top: bool): (r: seq<Content>)
    ensures |r| == |s|
    decreases s
  {
    if s == [] then [] else [Canon(s[0], top)] + CanonAll(s[1..], top)
  }

  function Kept(s: seq<Entry>, top: bool): seq<Pair<Content>>
    decreases s
  {
    if s == [] then []
    else if top && Ignored(Text(s[0].key)) then Kept(s[1..], top)
    else [CanonEntry(s[0])] + Kept(s[1..], top)
  }

  function CanonEntry(e: Entry): Pair<Content>
    decreases e
  {
    Pair(Text(e.key), Canon(e.value, false))
  }

  /** The blueprint's root mapping, out of the document around it. */
  function Root(n: Node): Node {
    if n.Document? && |n.children| == 1 then n.children[0] else n
  }

  function CanonRoot(root: Option<Node>): Content {
    if root.None? then Nothing else Canon(Root(root.value), true)
  }

  // ---- the encoding

  function Digits(n: nat): string {
    (if n < 10 then "" else Digits(n / 10)) + [('0' as int + n % 10) as char]
  }

  function Len(n: nat): string {
    Digits(n) + ":"
  }

  function Field(s: string): string {
    Len(|s|) + s
  }

  function Enc(c: Content): string
    decreases c, 0
  {
    match c
    case Leaf(tag, value) => Field("scalar") + Field(tag) + Field(value)
    case Record(pairs) => Field("map") + Len(|pairs|) + EncPairs(pairs)
    case List(items) => Field("seq") + Len(|items|) + EncAll(items)
    case Documents(children) => Field("doc") + EncAll(children)
    case Nothing => Field("nil")
  }

  function EncAll(s: seq<Content>): string
    decreases s
  {
    if s == [] then "" else Enc(s[0]) + EncAll(s[1..])
  }

  function EncPairs(s: seq<Pair<Content>>): string
    decreases s
  {
    if s == [] then "" else EncPair(s[0]) + EncPairs(s[1..])
  }

  function EncPair(p: Pair<Content>): string
    decreases p
  {
    Field(p.key) + Enc(p.value)
  }

  function Stream(root: Option<Node>): string {
    SALT + Enc(CanonRoot(root))
  }

  // ---- a decoder

  datatype Read<+T> = Bad | Read(value: T, rest: string)

  /** Decimal digits up to a colon, appended to those already read. */
  function ReadLen(read: nat, s: string): (r: Read<nat>)
    ensures r.Read? ==> |r.rest| < |s|
    decreases |s|
  {
    if s == "" then Bad
    else if s[0] == ':' then Read(read, s[1..])
    else if '0' <= s[0] <= '9' then ReadLen(10 * read + (s[0] as int - '0' as int), s[1..])
    else Bad
  }

  function ReadField(s: string): (r: Read<string>)
    ensures r.Read? ==> |r.rest| < |s|
  {
    var n := ReadLen(0, s);
    if n.Bad? || n.value > |n.rest| then Bad else Read(n.rest[..n.value], n.rest[n.value..])
  }

  function ReadContent(s: string): (r: Read<Content>)
    ensures r.Read? ==> |r.rest| < |s|
    decreases |s|, 0
  {
    var kind := ReadField(s);
    if kind.Bad? then Bad
    else if kind.value == "scalar" then
      var tag := ReadField(kind.rest);
      if tag.Bad? then Bad else
      var value := ReadField(tag.rest);
      if value.Bad? then Bad else Read(Leaf(tag.value, value.value), value.rest)
    else if kind.value == "map" then
      var n := ReadLen(0, kind.rest);
      if n.Bad? then Bad else
      var pairs := ReadPairs(n.value, n.rest);
      if pairs.Bad? then Bad else Read(Record(pairs.value), pairs.rest)
    else if kind.value == "seq" then
      var n := ReadLen(0, kind.rest);
      if n.Bad? then Bad else
      var items := ReadContents(n.value, n.rest);
      if items.Bad? then Bad else Read(List(items.value), items.rest)
    else if kind.value == "nil" then Read(Nothing, kind.rest)
    else Bad
  }

  function ReadContents(n: nat, s: string): (r: Read<seq<Content>>)
    ensures r.Read? ==> |r.rest| <= |s|
    decreases |s|, 1
  {
    if n == 0 then Read([], s) else
    var first := ReadContent(s);
    if first.Bad? then Bad else
    var others := ReadContents(n - 1, first.rest);
    if others.Bad? then Bad else Read([first.value] + others.value, others.rest)
  }

  function ReadPairs(n: nat, s: string): (r: Read<seq<Pair<Content>>>)
    ensures r.Read? ==> |r.rest| <= |s|
    decreases |s|, 1
  {
    if n == 0 then Read([], s) else
    var key := ReadField(s);
    if key.Bad? then Bad else
    var value := ReadContent(key.rest);
    if value.Bad? then Bad else
    var others := ReadPairs(n - 1, value.rest);
    if others.Bad? then Bad else Read([Pair(key.value, value.value)] + others.value, others.rest)
  }

  /** Documents carry no count, so they can be read back only up to the end of the stream. */
  function DecodeToEnd(s: string): Option<seq<Content>>
    decreases |s|
  {
    if s == "" then Some([]) else
    var first := ReadContent(s);
    if first.Bad? then None else
    var others := DecodeToEnd(first.rest);
    if others.None? then None else Some([first.value] + others.value)
  }

  function DecodeStream(s: string): Option<Content> {
    if !(SALT <= s) then None else
    var body := s[|SALT|..];
    var kind := ReadField(body);
    if kind.Read? && kind.value == "doc" then
      var children := DecodeToEnd(kind.rest);
      if children.None? then None else Some(Documents(children.value))
    else
      var c := ReadContent(body);
      if c.Bad? || c.rest != "" then None else Some(c.value)
  }

  // ---- the decoder inverts the encoding

  predicate Flat(c: Content)
    decreases c, 0
  {
    match c
    case Leaf(_, _) => true
    case Record(pairs) => FlatPairs(pairs)
    case List(items) => FlatAll(items)
    case Documents(_) => false
    case Nothing => true
  }

  predicate FlatAll(s: seq<Content>)
    decreases s
  {
    s == [] || (Flat(s[0]) && FlatAll(s[1..]))
  }

  predicate FlatPairs(s: seq<Pair<Content>>)
    decreases s
  {
    s == [] || (Flat(s[0].value) && FlatPairs(s[1..]))
  }

  lemma {:induction false} ReadsDigits(n: nat, s: string)
    ensures ReadLen(0, Digits(n) + s) == ReadLen(n, s)
  {
    var d := [('0' as int + n % 10) as char];
    assert ReadLen(n / 10, d + s) == ReadLen(n, s) by {
      assert (d + s)[1..] == s;
    }
    if n < 10 {
      assert Digits(n) + s == d + s;
    } else {
      ReadsDigits(n / 10, d + s);
      assert Digits(n) + s == Digits(n / 10) + (d + s);
    }
  }

  lemma ReadsLen(n: nat, s: string)
    ensures ReadLen(0, Len(n) + s) == Read(n, s)
  {
    ReadsDigits(n, ":" + s);
    assert Len(n) + s == Digits(n) + (":" + s);
    assert (":" + s)[1..] == s;
  }

  lemma ReadsField(f: string, s: string)
    ensures ReadField(Field(f) + s) == Read(f, s)
  {
    ReadsLen(|f|, f + s);
    assert Field(f) + s == Len(|f|) + (f + s);
  }

  lemma ReadsKind(kind: string, body: string, s: string)
    ensures ReadField(Field(kind) + body + s) == Read(kind, body + s)
  {
    assert Field(kind) + body + s == Field(kind) + (body + s);
    ReadsField(kind, body + s);
  }

  lemma DecodeLeaf(kind: string, tag: string, value: string, s: string)
    requires kind == "scalar"
    ensures ReadContent(Field(kind) + Field(tag) + Field(value) + s) == Read(Leaf(tag, value), s)
  {
    assert Field(kind) + Field(tag) + Field(value) + s == Field(kind) + (Field(tag) + (Field(value) + s));
    ReadsField(kind, Field(tag) + (Field(value) + s));
    ReadsField(tag, Field(value) + s);
    ReadsField(value, s);
  }

  lemma DecodeCounted(kind: string, n: nat, body: string, s: string)
    ensures var kindRead := ReadField(Field(kind) + Len(n) + body + s);
            && kindRead.Read? && kindRead.value == kind
            && ReadLen(0, kindRead.rest) == Read(n, body + s)
  {
    assert Field(kind) + Len(n) + body + s == Field(kind) + (Len(n) + (body + s));
    ReadsField(kind, Len(n) + (body + s));
    ReadsLen(n, body + s);
  }

  lemma {:induction false} DecodeEnc(c: Content, s: string)
    requires Flat(c)
    ensures ReadContent(Enc(c) + s) == Read(c, s)
    decreases c, 0
  {
    match c
    case Leaf(tag, value) =>
      DecodeLeaf("scalar", tag, value, s);
    case Record(pairs) =>
      DecodeCounted("map", |pairs|, EncPairs(pairs), s);
      DecodeEncPairs(pairs, s);
    case List(items) =>
      DecodeCounted("seq", |items|, EncAll(items), s);
      DecodeEncAll(items, s);
    case Nothing =>
      ReadsField("nil", s);
  }

  lemma {:induction false} DecodeEncAll(items: seq<Content>, s: string)
    requires FlatAll(items)
    ensures ReadContents(|items|, EncAll(items) + s) == Read(items, s)
    decreases items
  {
    if items == [] {
      assert EncAll(items) + s == s;
    } else {
      assert EncAll(items) + s == Enc(items[0]) + (EncAll(items[1..]) + s);
      DecodeEnc(items[0], EncAll(items[1..]) + s);
      DecodeEncAll(items[1..], s);
      assert items == [items[0]] + items[1..];
    }
  }

  lemma {:induction false} DecodeEncPairs(pairs: seq<Pair<Content>>, s: string)
    requires FlatPairs(pairs)
    ensures ReadPairs(|pairs|, EncPairs(pairs) + s) == Read(pairs, s)
    decreases pairs
  {
    if pairs == [] {
      assert EncPairs(pairs) + s == s;
    } else {
      var others := EncPairs(pairs[1..]) + s;
      assert EncPairs(pairs) + s == Field(pairs[0].key) + (Enc(pairs[0].value) + others);
      ReadsField(pairs[0].key, Enc(pairs[0].value) + others);
      assert pairs[0] == Pair(pairs[0].key, pairs[0].value);
      DecodeEnc(pairs[0].value, others);
      DecodeEncPairs(pairs[1..], s);
      assert pairs == [pairs[0]] + pairs[1..];
    }
  }

  lemma {:induction false} DecodeEncToEnd(items: seq<Content>)
    requires FlatAll(items)
    ensures DecodeToEnd(EncAll(items)) == Some(items)
  {
    if items != [] {
      DecodeEnc(items[0], EncAll(items[1..]));
      DecodeEncToEnd(items[1..]);
      assert items == [items[0]] + items[1..];
    }
  }

  /** Reading a stream back gives the content it was written from. */
  lemma DecodeEncStream(c: Content)
    requires if c.Documents? then FlatAll(c.children) else Flat(c)
    ensures DecodeStream(SALT + Enc(c)) == Some(c)
  {
    assert (SALT + Enc(c))[|SALT|..] == Enc(c);
    assert Enc(c) + "" == Enc(c);
    if c.Documents? {
      ReadsField("doc", EncAll(c.children));
      DecodeEncToEnd(c.children);
    } else {
      DecodeEnc(c, "");
      NotADocument(c);
    }
  }

  lemma NotADocument(c: Content)
    requires !c.Documents?
    ensures ReadField(Enc(c)).Read? && ReadField(Enc(c)).value != "doc"
  {
    match c
    case Leaf(tag, value) =>
      ReadsKind("scalar", Field(tag), Field(value));
    case Record(pairs) =>
      ReadsKind("map", Len(|pairs|), EncPairs(pairs));
    case List(items) =>
      ReadsKind("seq", Len(|items|), EncAll(items));
    case Nothing =>
      ReadsField("nil", "");
      assert Field("nil") + "" == Field("nil");
  }

  predicate NoDocument(n: Node)
    decreases n, 0
  {
    match n
    case Scalar(_, _) => true
    case Mapping(_, entries) => NoDocumentInEntries(entries)
    case Sequence(_, items) => NoDocuments(items)
    case Document(_) => false
    case Alias(_, target) => NoDocument(target)
  }

  predicate NoDocuments(s: seq<Node>)
    decreases s
  {
    s == [] || (NoDocument(s[0]) && NoDocuments(s[1..]))
  }

  predicate NoDocumentInEntries(s: seq<Entry>)
    decreases s
  {
    s == [] || (NoDocumentInEntry(s[0]) && NoDocumentInEntries(s[1..]))
  }

  predicate NoDocumentInEntry(e: Entry)
    decreases e
  {
    NoDocument(e.value)
  }

  /** Document nodes occur at the root alone, as the parser builds them. */
  predicate DocumentsAtRoot(root: Option<Node>) {
    root.Some? ==>
      var n := Root(root.value);
      if n.Document? then NoDocuments(n.children) else NoDocument(n)
  }

  lemma {:induction false} CanonFlat(n: Node, top: bool)
    requires NoDocument(n)
    ensures Flat(Canon(n, top))
    decreases n, 0
  {
    match n
    case Scalar(_, _) =>
    case Mapping(_, entries) =>
      KeptFlat(entries, top);
      SortFlat(Kept(entries, top));
    case Sequence(_, items) => CanonAllFlat(items, false);
    case Alias(_, target) => CanonFlat(target, top);
  }

  lemma {:induction false} CanonAllFlat(s: seq<Node>, top: bool)
    requires NoDocuments(s)
    ensures FlatAll(CanonAll(s, top))
    decreases s
  {
    if s != [] {
      CanonFlat(s[0], top);
      CanonAllFlat(s[1..], top);
    }
  }

  lemma {:induction false} KeptFlat(s: seq<Entry>, top: bool)
    requires NoDocumentInEntries(s)
    ensures FlatPairs(Kept(s, top))
    decreases s
  {
    if s != [] {
      CanonEntryFlat(s[0]);
      KeptFlat(s[1..], top);
    }
  }

  lemma {:induction false} CanonEntryFlat(e: Entry)
    requires NoDocumentInEntry(e)
    ensures Flat(CanonEntry(e).value)
    decreases e
  {
    CanonFlat(e.value, false);
  }

  lemma {:induction false} InsertFlat(p: Pair<Content>, s: seq<Pair<Content>>)
    requires Flat(p.value) && FlatPairs(s)
    ensures FlatPairs(Insert(p, s))
  {
    if s != [] && Before(s[0].key, p.key) {
      InsertFlat(p, s[1..]);
    }
  }

  lemma {:induction false} SortFlat(s: seq<Pair<Content>>)
    requires FlatPairs(s)
    ensures FlatPairs(SortByKey(s))
  {
    if s != [] {
      SortFlat(s[1..]);
      InsertFlat(s[0], SortByKey(s[1..]));
    }
  }

  /** The stream is canonical and uniquely decodable: two blueprints have the same one
      exactly when their canonical contents are equal. */
  lemma SameStreamIffSameContent(a: Option<Node>, b: Option<Node>)
    requires DocumentsAtRoot(a) && DocumentsAtRoot(b)
    ensures Stream(a) == Stream(b) <==> CanonRoot(a) == CanonRoot(b)
  {
    StreamReadsBack(a);
    StreamReadsBack(b);
  }

  lemma StreamReadsBack(a: Option<Node>)
    requires DocumentsAtRoot(a)
    ensures DecodeStream(Stream(a)) == Some(CanonRoot(a))
  {
    if a.Some? {
      var n := Root(a.value);
      if n.Document? {
        CanonAllFlat(n.children, true);
      } else {
        CanonFlat(n, true);
      }
    }
    DecodeEncStream(CanonRoot(a));
  }

  /** Two mappings mean the same exactly when every key, apart from the ignored ones, has
      the same values in the same order, whatever the tags and the order of the keys. */
  lemma MappingsAlike(tag: string, s: seq<Entry>, tag': string, t: seq<Entry>, top: bool)
    ensures Canon(Mapping(tag, s), top) == Canon(Mapping(tag', t), top)
            <==> SameValues(Kept(s, top), Kept(t, top))
  {
    SortedAlike(Kept(s, top), Kept(t, top));
  }

  // ---- what two blueprints of one revision have in common

  /** What an alias stands for, however many there are in a row. */
  function Target(n: Node): Node {
    match n
    case Alias(_, target) => Target(target)
    case _ => n
  }

  /** The same scalars, tags included, the same items in the same order and, under every key,
      the same values in the same order; at the top two keys do not count. */
  ghost predicate Alike(a: Node, b: Node, top: bool)
    decreases a, 0
  {
    match a
    case Alias(_, target) => Alike(target, b, top)
    case Scalar(_, _) => Target(b) == a
    case Mapping(_, s) =>
      && Target(b).Mapping?
      && forall key :: (top && (key == "description" || key == "isTemplate")) || AlikeUnder(s, Target(b).entries, key)
    case Sequence(_, s) => Target(b).Sequence? && AlikeAll(s, Target(b).items, false)
    case Document(s) => Target(b).Document? && AlikeAll(s, Target(b).children, top)
  }

  ghost predicate AlikeAll(s: seq<Node>, t: seq<Node>, top: bool)
    decreases s
  {
    if s == [] then t == [] else t != [] && Alike(s[0], t[0], top) && AlikeAll(s[1..], t[1..], top)
  }

  ghost predicate AlikeUnder(s: seq<Entry>, t: seq<Entry>, key: string)
    decreases s
  {
    if s == [] then key !in Keys(t)
    else if Text(s[0].key) != key then AlikeUnder(s[1..], t, key)
    else exists j :: FirstAt(t, key, j) && AlikeEntry(s[0], t[j]) && AlikeUnder(s[1..], t[j + 1..], key)
  }

  ghost predicate AlikeEntry(e: Entry, f: Entry)
    decreases e
  {
    Alike(e.value, f.value, false)
  }

  lemma {:induction false} CanonTarget(n: Node, top: bool)
    ensures Canon(n, top) == Canon(Target(n), top) && !Target(n).Alias?
  {
    if n.Alias? {
      CanonTarget(n.target, top);
    }
  }

  lemma FirstOfTail(s: seq<Entry>, key: string, j: int)
    requires FirstAt(s, key, j) && j > 0
    ensures Text(s[0].key) != key && FirstAt(s[1..], key, j - 1) && s[1..][j - 1] == s[j] && s[1..][j..] == s[j + 1..]
  {
    forall i | 0 <= i < j - 1
      ensures Text(s[1..][i].key) != key
    {
      assert s[1..][i] == s[i + 1];
    }
  }

  /** The values kept under a key begin with that of its first entry. */
  lemma {:induction false} FirstValueKept(s: seq<Entry>, key: string, top: bool, j: int)
    requires !(top && Ignored(key)) && FirstAt(s, key, j)
    ensures ValuesOf(Kept(s, top), key) == [Canon(s[j].value, false)] + ValuesOf(Kept(s[j + 1..], top), key)
  {
    if j > 0 {
      FirstOfTail(s, key, j);
      FirstValueKept(s[1..], key, top, j - 1);
    }
  }

  lemma FirstExists(s: seq<Entry>, key: string) returns (j: nat)
    requires key in Keys(s)
    ensures FirstAt(s, key, j)
  {
    var k :| 0 <= k < |s| && Keys(s)[k] == key;
    j := FirstUpTo(s, key, k);
  }

  lemma {:induction false} FirstUpTo(s: seq<Entry>, key: string, k: nat) returns (j: nat)
    requires k < |s| && Text(s[k].key) == key
    ensures FirstAt(s, key, j)
  {
    j := k;
    if i: nat :| i < k && Text(s[i].key) == key {
      j := FirstUpTo(s, key, i);
    }
  }

  lemma {:induction false} IgnoredAreNotKept(s: seq<Entry>, key: string)
    requires Ignored(key)
    ensures ValuesOf(Kept(s, true), key) == []
  {
    if s != [] {
      IgnoredAreNotKept(s[1..], key);
    }
  }

  lemma {:induction false} CanonAlike(a: Node, b: Node, top: bool)
    ensures Canon(a, top) == Canon(b, top) <==> Alike(a, b, top)
    decreases a, 0
  {
    CanonTarget(b, top);
    var t := Target(b);
    match a
    case Alias(_, target) => CanonAlike(target, b, top);
    case Scalar(_, _) =>
    case Mapping(tag, s) =>
      if t.Mapping? {
        MappingsAlike(tag, s, t.tag, t.entries, top);
        forall key
          ensures ValuesOf(Kept(s, top), key) == ValuesOf(Kept(t.entries, top), key) <==>
                  (top && (key == "description" || key == "isTemplate")) || AlikeUnder(s, t.entries, key)
        {
          if top && Ignored(key) {
            IgnoredAreNotKept(s, key);
            IgnoredAreNotKept(t.entries, key);
          } else {
            ValuesAlike(s, t.entries, key, top);
          }
        }
      }
    case Sequence(_, s) =>
      if t.Sequence? {
        CanonAlikeAll(s, t.items, false);
      }
    case Document(s) =>
      if t.Document? {
        CanonAlikeAll(s, t.children, top);
      }
  }

  lemma {:induction false} CanonAlikeAll(s: seq<Node>, t: seq<Node>, top: bool)
    ensures CanonAll(s, top) == CanonAll(t, top) <==> AlikeAll(s, t, top)
    decreases s
  {
    if s != [] && t != [] {
      CanonAlike(s[0], t[0], top);
      CanonAlikeAll(s[1..], t[1..], top);
      assert CanonAll(s, top)[1..] == CanonAll(s[1..], top) && CanonAll(t, top)[1..] == CanonAll(t[1..], top);
    }
  }

  lemma {:induction false} ValuesAlike(s: seq<Entry>, t: seq<Entry>, key: string, top: bool)
    requires !(top && Ignored(key))
    ensures ValuesOf(Kept(s, top), key) == ValuesOf(Kept(t, top), key) <==> AlikeUnder(s, t, key)
    decreases s
  {
    if key !in Keys(t) {
      NoValue(t, key, top);
      NotFirst(t, key);
    }
    if s == [] {
      if key in Keys(t) {
        var j := FirstExists(t, key);
        FirstValueKept(t, key, top, j);
      }
    } else if Text(s[0].key) != key {
      ValuesAlike(s[1..], t, key, top);
    } else if key in Keys(t) {
      var j := FirstExists(t, key);
      FirstValueKept(t, key, top, j);
      EntryAlike(s[0], t[j]);
      ValuesAlike(s[1..], t[j + 1..], key, top);
      HeadAndTail(Canon(s[0].value, false), ValuesOf(Kept(s[1..], top), key),
                  Canon(t[j].value, false), ValuesOf(Kept(t[j + 1..], top), key));
      assert forall i :: FirstAt(t, key, i) ==> i == j;
    }
  }

  lemma HeadAndTail(a: Content, s: seq<Content>, b: Content, t: seq<Content>)
    ensures [a] + s == [b] + t <==> a == b && s == t
  {
    assert ([a] + s)[1..] == s && ([b] + t)[1..] == t;
    assert ([a] + s)[0] == a && ([b] + t)[0] == b;
  }

  lemma NotFirst(s: seq<Entry>, key: string)
    requires key !in Keys(s)
    ensures forall j :: !FirstAt(s, key, j)
  {
    forall j | 0 <= j < |s|
      ensures Text(s[j].key) != key
    {
      assert Keys(s)[j] in Keys(s);
    }
  }

  lemma {:induction false} EntryAlike(e: Entry, f: Entry)
    ensures Canon(e.value, false) == Canon(f.value, false) <==> AlikeEntry(e, f)
    decreases e
  {
    CanonAlike(e.value, f.value, false);
  }

  /** Two blueprints have one revision exactly when they are alike: neither the order of
      distinct keys nor aliases nor the tags of mappings and sequences tell them apart, and
      everything else does but for the two keys at the top. */
  lemma SameRevisionIffAlike(a: Node, b: Node)
    requires DocumentsAtRoot(Some(a)) && DocumentsAtRoot(Some(b))
    ensures Stream(Some(a)) == Stream(Some(b)) <==> Alike(Root(a), Root(b), true)
  {
    SameStreamIffSameContent(Some(a), Some(b));
    CanonAlike(Root(a), Root(b), true);
  }

  lemma OneValue(s: seq<Entry>, i: nat, top: bool)
    requires i < |s| && Distinct(Keys(s))
    ensures var key := Text(s[i].key);
            ValuesOf(Kept(s, top), key) == if top && Ignored(key) then [] else [Canon(s[i].value, false)]
  {
    var key := Text(s[i].key);
    if top && Ignored(key) {
      IgnoredAreNotKept(s, key);
    } else {
      forall j | 0 <= j < |s| && j != i
        ensures Text(s[j].key) != key
      {
        assert Keys(s)[j] != Keys(s)[i];
      }
      FirstValueKept(s, key, top, i);
      var rest := s[i + 1..];
      assert forall j :: 0 <= j < |rest| ==> Keys(rest)[j] == Text(s[i + 1 + j].key);
      NoValue(rest, key, top);
    }
  }

  lemma {:induction false} NoValue(s: seq<Entry>, key: string, top: bool)
    requires key !in Keys(s)
    ensures ValuesOf(Kept(s, top), key) == []
  {
    if s != [] {
      assert Keys(s) == [Keys(s)[0]] + Keys(s[1..]);
      assert Keys(s)[0] in Keys(s);
      NoValue(s[1..], key, top);
    }
  }

  /** A mapping with distinct keys has the same revision in whatever order they come. */
  lemma KeyOrderIsIrrelevant(tag: string, s: seq<Entry>, t: seq<Entry>, top: bool)
    requires multiset(s) == multiset(t) && Distinct(Keys(s)) && Distinct(Keys(t))
    ensures Canon(Mapping(tag, s), top) == Canon(Mapping(tag, t), top)
  {
    forall key
      ensures ValuesOf(Kept(s, top), key) == ValuesOf(Kept(t, top), key)
    {
      if i :| 0 <= i < |s| && Text(s[i].key) == key {
        assert s[i] in multiset(t);
        var j :| 0 <= j < |t| && t[j] == s[i];
        OneValue(s, i, top);
        OneValue(t, j, top);
      } else {
        forall j | 0 <= j < |t|
          ensures Text(t[j].key) != key
        {
          assert t[j] in multiset(s);
        }
        NoValue(s, key, top);
        NoValue(t, key, top);
      }
    }
    MappingsAlike(tag, s, tag, t, top);
  }

  /** Scalar tags reach the stream, those of mappings and sequences do not. */
  lemma OnlyScalarTagsCount(tag: string, tag': string, value: string, entries: seq<Entry>, items: seq<Node>, top: bool)
    requires NoDocument(Mapping(tag, entries)) && NoDocuments(items)
    ensures Stream(Some(Scalar(tag, value))) == Stream(Some(Scalar(tag', value))) <==> tag == tag'
    ensures Stream(Some(Mapping(tag, entries))) == Stream(Some(Mapping(tag', entries)))
    ensures Stream(Some(Sequence(tag, items))) == Stream(Some(Sequence(tag', items)))
  {
    SameStreamIffSameContent(Some(Scalar(tag, value)), Some(Scalar(tag', value)));
  }

  // ---- the code that writes the stream

  function CanonPairs(s: seq<Pair<Node>>): (r: seq<Pair<Content>>)
    ensures |r| == |s|
    ensures forall i :: 0 <= i < |s| ==> r[i] == Pair(s[i].key, Canon(s[i].value, false))
  {
    if s == [] then [] else [Pair(s[0].key, Canon(s[0].value, false))] + CanonPairs(s[1..])
  }

  lemma {:induction false} InsertCanonPairs(p: Pair<Node>, s: seq<Pair<Node>>)
    ensures CanonPairs(Insert(p, s)) == Insert(Pair(p.key, Canon(p.value, false)), CanonPairs(s))
  {
    if s != [] && Before(s[0].key, p.key) {
      InsertCanonPairs(p, s[1..]);
    }
  }

  /** Sorting the nodes and then making them canonical is making them canonical and then
      sorting. */
  lemma {:induction false} SortCanonPairs(s: seq<Pair<Node>>)
    ensures CanonPairs(SortByKey(s)) == SortByKey(CanonPairs(s))
  {
    if s != [] {
      SortCanonPairs(s[1..]);
      InsertCanonPairs(s[0], SortByKey(s[1..]));
    }
  }

  lemma {:induction false} EncPairsAppend(s: seq<Pair<Content>>, p: Pair<Content>)
    ensures EncPairs(s + [p]) == EncPairs(s) + EncPair(p)
  {
    if s == [] {
      assert s + [p] == [p];
      assert EncPairs([p]) == EncPair(p) + EncPairs([]);
      assert EncPairs([p]) == EncPair(p);
    } else {
      EncPairsAppend(s[1..], p);
      assert (s + [p])[1..] == s[1..] + [p];
      Associative(EncPair(s[0]), EncPairs(s[1..]), EncPair(p));
    }
  }

  lemma EncPairsNext(s: seq<Pair<Content>>, i: nat)
    requires i < |s|
    ensures EncPairs(s[..i + 1]) == EncPairs(s[..i]) + EncPair(s[i])
  {
    assert s[..i + 1] == s[..i] + [s[i]];
    EncPairsAppend(s[..i], s[i]);
  }

  lemma Associative(a: string, b: string, c: string)
    ensures a + b + c == a + (b + c)
  {
  }

  lemma {:induction false} EncAllAppend(s: seq<Content>, c: Content)
    ensures EncAll(s + [c]) == EncAll(s) + Enc(c)
  {
    if s == [] {
      assert s + [c] == [c];
      assert EncAll([c]) == Enc(c) + EncAll([]);
      assert EncAll([c]) == Enc(c);
    } else {
      EncAllAppend(s[1..], c);
      assert (s + [c])[1..] == s[1..] + [c];
      Associative(Enc(s[0]), EncAll(s[1..]), Enc(c));
    }
  }

  lemma {:induction false} CanonAllAt(s: seq<Node>, top: bool, i: nat)
    requires i < |s|
    ensures CanonAll(s, top)[i] == Canon(s[i], top)
  {
    if i > 0 {
      CanonAllAt(s[1..], top, i - 1);
    }
  }

  lemma {:induction false} KeptAppend(s: seq<Entry>, e: Entry, top: bool)
    ensures Kept(s + [e], top) ==
            Kept(s, top) + if top && Ignored(Text(e.key)) then [] else [Pair(Text(e.key), Canon(e.value, false))]
  {
    if s == [] {
      assert s + [e] == [e];
      assert Kept([e][1..], top) == [];
    } else {
      KeptAppend(s[1..], e, top);
      assert (s + [e])[1..] == s[1..] + [e];
    }
  }

  ghost predicate ValueIn(value: Node, entries: seq<Entry>) {
    exists j :: 0 <= j < |entries| && value == entries[j].value
  }

  class RevisionHash {
    var written: string

    constructor ()
      ensures written == ""
    {
      written := "";
    }

    method Write(bytes: string)
      modifies this
      ensures written == old(written) + bytes
    {
      written := written + bytes;
    }

    method WriteLen(n: nat)
      modifies this
      ensures written == old(written) + Len(n)
    {
      Write(Digits(n) + ":");
    }

    method WriteField(s: string)
      modifies this
      ensures written == old(written) + Field(s)
    {
      WriteLen(|s|);
      Write(s);
    }

    method HashNode(root: Node, top: bool)
      modifies this
      ensures written == old(written) + Enc(Canon(root, top))
      decreases root, 1
    {
      var node := root;
      while node.Alias?
        invariant Canon(node, top) == Canon(root, top)
        invariant node == root || node < root
        decreases node
      {
        node := node.target;
      }
      match node {
        case Document(children) => HashDocument(children, top);
        case Mapping(_, entries) => HashMapping(entries, top);
        case Sequence(_, items) => HashSequence(items);
        case Scalar(tag, value) => HashScalar(tag, value);
      }
    }

    method HashDocument(children: seq<Node>, top: bool)
      modifies this
      ensures written == old(written) + Enc(Documents(CanonAll(children, top)))
      decreases children, 1
    {
      WriteField("doc");
      HashAll(children, top);
      Associative(old(written), Field("doc"), EncAll(CanonAll(children, top)));
    }

    method HashSequence(items: seq<Node>)
      modifies this
      ensures written == old(written) + Enc(List(CanonAll(items, false)))
      decreases items, 1
    {
      WriteField("seq");
      WriteLen(|items|);
      Associative(old(written), Field("seq"), Len(|items|));
      HashAll(items, false);
      Associative(old(written), Field("seq") + Len(|items|), EncAll(CanonAll(items, false)));
    }

    method HashScalar(tag: string, value: string)
      modifies this
      ensures written == old(written) + Enc(Leaf(tag, value))
    {
      WriteField("scalar");
      WriteField(tag);
      Associative(old(written), Field("scalar"), Field(tag));
      WriteField(value);
      Associative(old(written), Field("scalar") + Field(tag), Field(value));
    }

    method HashAll(s: seq<Node>, top: bool)
      modifies this
      ensures written == old(written) + EncAll(CanonAll(s, top))
      decreases s, 0
    {
      ghost var contents := CanonAll(s, top);
      for i := 0 to |s|
        invariant written == old(written) + EncAll(contents[..i])
      {
        HashNode(s[i], top);
        CanonAllAt(s, top, i);
        EncAllAppend(contents[..i], contents[i]);
        assert contents[..i + 1] == contents[..i] + [contents[i]];
        Associative(old(written), EncAll(contents[..i]), Enc(contents[i]));
      }
      assert contents[..|s|] == contents;
    }

    method Collect(entries: seq<Entry>, top: bool) returns (pairs: seq<Pair<Node>>)
      ensures CanonPairs(pairs) == Kept(entries, top)
      ensures forall p <- pairs :: ValueIn(p.value, entries)
    {
      pairs := [];
      for i := 0 to |entries|
        invariant CanonPairs(pairs) == Kept(entries[..i], top)
        invariant forall p <- pairs :: ValueIn(p.value, entries)
      {
        var key := Text(entries[i].key);
        KeptAppend(entries[..i], entries[i], top);
        assert entries[..i + 1] == entries[..i] + [entries[i]];
        if top && Ignored(key) {
          continue;
        }
        pairs := pairs + [Pair(key, entries[i].value)];
      }
      assert entries[..|entries|] == entries;
    }

    method HashMapping(entries: seq<Entry>, top: bool)
      modifies this
      ensures written == old(written) + Enc(Record(SortByKey(Kept(entries, top))))
      decreases entries, 1
    {
      var pairs := Collect(entries, top);
      var sorted := SortByKey(pairs);
      SortCanonPairs(pairs);
      SortKeepsValues(pairs, entries);
      WriteField("map");
      WriteLen(|pairs|);
      Associative(old(written), Field("map"), Len(|pairs|));
      HashPairs(sorted, entries);
      Associative(old(written), Field("map") + Len(|pairs|), EncPairs(CanonPairs(sorted)));
    }

    method HashPairs(sorted: seq<Pair<Node>>, ghost entries: seq<Entry>)
      requires forall p <- sorted :: ValueIn(p.value, entries)
      modifies this
      ensures written == old(written) + EncPairs(CanonPairs(sorted))
      decreases entries, 0
    {
      ghost var contents := CanonPairs(sorted);
      for i := 0 to |sorted|
        invariant written == old(written) + EncPairs(contents[..i])
      {
        ghost var j :| 0 <= j < |entries| && sorted[i].value == entries[j].value;
        HashPair(sorted[i], entries[j]);
        EncPairsNext(contents, i);
        Associative(old(written), EncPairs(contents[..i]), EncPair(contents[i]));
      }
      assert contents[..|sorted|] == contents;
    }

    method HashPair(p: Pair<Node>, ghost entry: Entry)
      requires p.value == entry.value
      modifies this
      ensures written == old(written) + EncPair(Pair(p.key, Canon(p.value, false)))
      decreases entry
    {
      WriteField(p.key);
      HashNode(p.value, false);
      Associative(old(written), Field(p.key), Enc(Canon(p.value, false)));
    }
  }

  lemma SortKeepsValues(pairs: seq<Pair<Node>>, entries: seq<Entry>)
    requires forall p <- pairs :: ValueIn(p.value, entries)
    ensures |SortByKey(pairs)| == |pairs|
    ensures forall p <- SortByKey(pairs) :: ValueIn(p.value, entries)
  {
    SortIsStable(pairs, "");
    var sorted := SortByKey(pairs);
    assert forall p <- sorted :: p in multiset(sorted);
    assert |multiset(sorted)| == |sorted| && |multiset(pairs)| == |pairs|;
  }

  method ComputeRevision(node: Option<Node>) returns (stream: string)
    ensures stream == Stream(node)
  {
    var h := new RevisionHash();
    h.Write(SALT);
    ghost var salted := h.written;
    if node.None? {
      h.WriteField("nil");
    } else if node.value.Document? && |node.value.children| == 1 {
      h.HashNode(node.value.children[0], true);
    } else {
      h.HashNode(node.value, true);
    }
    assert h.written == salted + Enc(CanonRoot(node));
    stream := h.written;
  }
}
