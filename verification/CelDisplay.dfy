/** Showing CEL expressions as plain strings and reading them back
    (internal/blueprint/blueprint.go:1469-1503, validate_raw.go:397-436). */
module CelDisplay {
  import opened Yaml

  const DISPLAY_PREFIX := "!cel:"
  const TAG_PREFIX := "!cel "

  function TrimLeft(s: string): string {
    if s != "" && s[0] == ' ' then TrimLeft(s[1..]) else s
  }

  function DisplayScalar(tag: string, value: string): Node {
    if tag == "!cel" then Scalar("!!str", DISPLAY_PREFIX + value) else Scalar(tag, value)
  }

  function RestoreScalar(tag: string, value: string): Node {
    if DISPLAY_PREFIX <= value then Scalar("!cel", value[|DISPLAY_PREFIX|..])
    else if TAG_PREFIX <= value then Scalar("!cel", TrimLeft(value[|TAG_PREFIX|..]))
    else Scalar(tag, value)
  }

  /** An alias goes on pointing to the node it pointed to. */
  function Display(n: Node): Node
    decreases n, 0
  {
    match n
    case Scalar(tag, value) => DisplayScalar(tag, value)
    case Mapping(tag, entries) => Mapping(tag, DisplayEntries(entries))
    case Sequence(tag, items) => Sequence(tag, DisplayAll(items))
    case Document(children) => Document(DisplayAll(children))
    case Alias(_, _) => n
  }

  function DisplayAll(s: seq<Node>): seq<Node>
    decreases s
  {
    if s == [] then [] else [Display(s[0])] + DisplayAll(s[1..])
  }

  function DisplayEntries(s: seq<Entry>): seq<Entry>
    decreases s
  {
    if s == [] then [] else [DisplayEntry(s[0])] + DisplayEntries(s[1..])
  }

  function DisplayEntry(e: Entry): Entry
    decreases e
  {
    Entry(Display(e.key), Display(e.value))
  }

  function Restore(n: Node): Node
    decreases n, 0
  {
    match n
    case Scalar(tag, value) => RestoreScalar(tag, value)
    case Mapping(tag, entries) => Mapping(tag, RestoreEntries(entries))
    case Sequence(tag, items) => Sequence(tag, RestoreAll(items))
    case Document(children) => Document(RestoreAll(children))
    case Alias(_, _) => n
  }

  function RestoreAll(s: seq<Node>): seq<Node>
    decreases s
  {
    if s == [] then [] else [Restore(s[0])] + RestoreAll(s[1..])
  }

  function RestoreEntries(s: seq<Entry>): seq<Entry>
    decreases s
  {
    if s == [] then [] else [RestoreEntry(s[0])] + RestoreEntries(s[1..])
  }

  function RestoreEntry(e: Entry): Entry
    decreases e
  {
    Entry(Restore(e.key), Restore(e.value))
  }

  /** No scalar, key or value, that is no CEL expression begins like a displayed one. */
  predicate NoLookalike(n: Node)
    decreases n, 0
  {
    match n
    case Scalar(tag, value) => tag == "!cel" || !(DISPLAY_PREFIX <= value || TAG_PREFIX <= value)
    case Mapping(_, entries) => NoLookalikeEntries(entries)
    case Sequence(_, items) => NoLookalikes(items)
    case Document(children) => NoLookalikes(children)
    case Alias(_, _) => true
  }

  predicate NoLookalikes(s: seq<Node>)
    decreases s
  {
    s == [] || (NoLookalike(s[0]) && NoLookalikes(s[1..]))
  }

  predicate NoLookalikeEntries(s: seq<Entry>)
    decreases s
  {
    s == [] || (NoLookalikeEntry(s[0]) && NoLookalikeEntries(s[1..]))
  }

  predicate NoLookalikeEntry(e: Entry)
    decreases e
  {
    NoLookalike(e.key) && NoLookalike(e.value)
  }

  /** Reading a displayed tree back gives the tree exactly when it has no look-alikes. */
  lemma {:induction false} RestoreDisplay(n: Node)
    ensures Restore(Display(n)) == n <==> NoLookalike(n)
    decreases n, 0
  {
    match n
    case Scalar(tag, value) =>
      assert (DISPLAY_PREFIX + value)[|DISPLAY_PREFIX|..] == value;
    case Mapping(_, entries) => RestoreDisplayEntries(entries);
    case Sequence(_, items) => RestoreDisplayAll(items);
    case Document(children) => RestoreDisplayAll(children);
    case Alias(_, _) =>
  }

  lemma {:induction false} RestoreDisplayAll(s: seq<Node>)
    ensures RestoreAll(DisplayAll(s)) == s <==> NoLookalikes(s)
    decreases s
  {
    if s != [] {
      RestoreDisplay(s[0]);
      RestoreDisplayAll(s[1..]);
      var rest := RestoreAll(DisplayAll(s[1..]));
      assert RestoreAll(DisplayAll(s)) == [Restore(Display(s[0]))] + rest by {
        assert DisplayAll(s)[1..] == DisplayAll(s[1..]);
      }
      assert s == [s[0]] + s[1..];
      assert ([Restore(Display(s[0]))] + rest)[1..] == rest;
    }
  }

  lemma {:induction false} RestoreDisplayEntries(s: seq<Entry>)
    ensures RestoreEntries(DisplayEntries(s)) == s <==> NoLookalikeEntries(s)
    decreases s
  {
    if s != [] {
      RestoreDisplayEntry(s[0]);
      RestoreDisplayEntries(s[1..]);
      var rest := RestoreEntries(DisplayEntries(s[1..]));
      assert RestoreEntries(DisplayEntries(s)) == [RestoreEntry(DisplayEntry(s[0]))] + rest by {
        assert DisplayEntries(s)[1..] == DisplayEntries(s[1..]);
      }
      assert s == [s[0]] + s[1..];
      assert ([RestoreEntry(DisplayEntry(s[0]))] + rest)[1..] == rest;
    }
  }

  lemma {:induction false} RestoreDisplayEntry(e: Entry)
    ensures RestoreEntry(DisplayEntry(e)) == e <==> NoLookalikeEntry(e)
    decreases e
  {
    RestoreDisplay(e.key);
    RestoreDisplay(e.value);
  }
}
