/** Plain values: what a list merged by a registered strategy is decoded to and encoded from
    (internal/blueprint/resolve.go:252-267). Scalars other than strings are taken to be
    written the way the encoder writes them, and keys to be scalars. */
module Values {
  import opened Prelude
  import opened Yaml

  datatype Value =
    | Str(text: string)
    | Other(tag: string, text: string)   // number, boolean, null, timestamp
    | Dict(fields: seq<Pair<Keyed>>)     // in the encoder's key order
    | Items(items: seq<Value>)

  /** A value together with the tag of its key. */
  datatype Keyed = Keyed(tag: string, value: Value)

  predicate Core(tag: string) {
    tag in ["!!int", "!!float", "!!bool", "!!null", "!!timestamp"]
  }

  /** Tags the decoder does not know, !cel among them, leave a string. */
  function PlainTag(tag: string): string {
    if Core(tag) then tag else "!!str"
  }

  predicate ScalarKeys(s: seq<Entry>) {
    forall e <- s :: e.key.Scalar?
  }

  function Decode(n: Node): Option<Value>
    decreases n, 0
  {
    match n
    case Scalar(tag, value) => Some(if Core(tag) then Other(tag, value) else Str(value))
    case Alias(_, target) => Decode(target)
    case Sequence(_, items) =>
      var values := DecodeAll(items);
      if values.None? then None else Some(Items(values.value))
    case Mapping(_, entries) =>
      if !Distinct(Keys(entries)) || !ScalarKeys(entries) then None else
      var fields := DecodeEntries(entries);
      if fields.None? then None else Some(Dict(SortByKey(fields.value)))
    case Document(_) => None
  }

  function DecodeAll(s: seq<Node>): (r: Option<seq<Value>>)
    ensures r.Some? ==> |r.value| == |s|
    decreases s
  {
    if s == [] then Some([]) else
    var first := Decode(s[0]);
    var others := DecodeAll(s[1..]);
    if first.None? || others.None? then None else Some([first.value] + others.value)
  }

  function DecodeEntries(s: seq<Entry>): (r: Option<seq<Pair<Keyed>>>)
    requires ScalarKeys(s)
    ensures r.Some? ==> |r.value| == |s| && forall i :: 0 <= i < |s| ==> r.value[i].key == Text(s[i].key)
    decreases s
  {
    if s == [] then Some([]) else
    var first := DecodeEntry(s[0]);
    var others := DecodeEntries(s[1..]);
    if first.None? || others.None? then None else Some([first.value] + others.value)
  }

  function DecodeEntry(e: Entry): (r: Option<Pair<Keyed>>)
    requires e.key.Scalar?
    ensures r.Some? ==> r.value.key == Text(e.key)
    decreases e
  {
    var v := Decode(e.value);
    if v.None? then None else Some(Pair(e.key.value, Keyed(e.key.tag, v.value)))
  }

  function Encode(v: Value): Node
    decreases v, 0
  {
    match v
    case Str(text) => Scalar("!!str", text)
    case Other(tag, text) => Scalar(tag, text)
    case Dict(fields) => Mapping("!!map", EncodeFields(fields))
    case Items(items) => Sequence("!!seq", EncodeAll(items))
  }

  function EncodeAll(s: seq<Value>): (r: seq<Node>)
    ensures |r| == |s|
    decreases s
  {
    if s == [] then [] else [Encode(s[0])] + EncodeAll(s[1..])
  }

  function EncodeFields(s: seq<Pair<Keyed>>): (r: seq<Entry>)
    ensures |r| == |s|
    ensures forall i :: 0 <= i < |s| ==> r[i].key == Scalar(PlainTag(s[i].value.tag), s[i].key)
    decreases s
  {
    if s == [] then [] else [EncodeField(s[0])] + EncodeFields(s[1..])
  }

  function EncodeField(p: Pair<Keyed>): (r: Entry)
    ensures r.key == Scalar(PlainTag(p.value.tag), p.key)
    decreases p, 1
  {
    Entry(Scalar(PlainTag(p.value.tag), p.key), EncodeKeyed(p.value))
  }

  function EncodeKeyed(k: Keyed): Node
    decreases k
  {
    Encode(k.value)
  }

  // ---- encoding and decoding again

  predicate KeysInOrder(s: seq<Pair<Keyed>>) {
    forall i, j :: 0 <= i < j < |s| ==> Before(s[i].key, s[j].key)
  }

  /** What the encoder keeps in full: no key carries a tag of its own, such as !cel. */
  predicate Neat(v: Value)
    decreases v, 0
  {
    match v
    case Str(_) => true
    case Other(tag, _) => Core(tag)
    case Dict(fields) => KeysInOrder(fields) && NeatFields(fields)
    case Items(items) => NeatAll(items)
  }

  predicate NeatAll(s: seq<Value>)
    decreases s
  {
    s == [] || (Neat(s[0]) && NeatAll(s[1..]))
  }

  predicate NeatFields(s: seq<Pair<Keyed>>)
    decreases s
  {
    s == [] || (NeatKeyed(s[0].value) && NeatFields(s[1..]))
  }

  predicate NeatKeyed(k: Keyed)
    decreases k
  {
    PlainTag(k.tag) == k.tag && Neat(k.value)
  }

  lemma InOrderIsSorted(s: seq<Pair<Keyed>>)
    requires KeysInOrder(s)
    ensures Sorted(s) && SortByKey(s) == s
  {
    forall i, j | 0 <= i < j < |s|
      ensures !Before(s[j].key, s[i].key)
    {
      BeforeIsStrictOrder(s[i].key, s[j].key);
    }
    SortIsStable(s, "");
    forall key
      ensures ValuesOf(SortByKey(s), key) == ValuesOf(s, key)
    {
      SortIsStable(s, key);
    }
    SortedIsUnique(SortByKey(s), s);
  }

  lemma InOrderIsDistinct(s: seq<Pair<Keyed>>)
    requires KeysInOrder(s)
    ensures Distinct(Keys(EncodeFields(s)))
  {
    forall i, j | 0 <= i < j < |s|
      ensures s[i].key != s[j].key
    {
      BeforeIsStrictOrder(s[i].key, s[j].key);
    }
  }

  lemma {:induction false} DecodeEncode(v: Value)
    requires Neat(v)
    ensures Decode(Encode(v)) == Some(v)
    decreases v, 0
  {
    match v
    case Str(_) =>
    case Other(_, _) =>
    case Dict(fields) =>
      InOrderIsDistinct(fields);
      InOrderIsSorted(fields);
      DecodeEncodeFields(fields);
    case Items(items) => DecodeEncodeAll(items);
  }

  lemma {:induction false} DecodeEncodeAll(s: seq<Value>)
    requires NeatAll(s)
    ensures DecodeAll(EncodeAll(s)) == Some(s)
    decreases s
  {
    if s != [] {
      DecodeEncode(s[0]);
      DecodeEncodeAll(s[1..]);
      assert s == [s[0]] + s[1..];
    }
  }

  lemma {:induction false} DecodeEncodeFields(s: seq<Pair<Keyed>>)
    requires NeatFields(s)
    ensures DecodeEntries(EncodeFields(s)) == Some(s)
    decreases s
  {
    if s != [] {
      DecodeEncodeKeyed(s[0].value);
      DecodeEncodeFields(s[1..]);
      assert s == [s[0]] + s[1..];
    }
  }

  lemma {:induction false} DecodeEncodeKeyed(k: Keyed)
    requires NeatKeyed(k)
    ensures Decode(EncodeKeyed(k)) == Some(k.value)
    decreases k
  {
    DecodeEncode(k.value);
  }
}
