/** Inlining of included files (internal/blueprint/blueprint.go:1507-1594). */
module Includes {
  import opened Prelude
  import opened Yaml

  datatype File = Unparsable | Empty | Holding(root: Node)

  /** The files that can be read, and how paths work: join resolves a path written in a file
      of a directory, dir is the directory of a file. */
  datatype Disk = Disk(files: map<string, File>, join: (string, string) -> string, dir: string -> string)

  datatype IncludeError =
    | Cycle(stack: seq<string>, path: string)
    | Unreadable(path: string)
    | ParseError(path: string)
    | EmptyFile(path: string)

  predicate IsInclude(n: Node) {
    n.Scalar? && n.tag == "!include"
  }

  function Elements(s: seq<string>): set<string> {
    set x | x in s
  }

  ghost function Unvisited(d: Disk, stack: seq<string>): set<string> {
    d.files.Keys - Elements(stack)
  }

  /** The candidates are the values of mappings and the items of sequences; a document's
      children are looked into, not replaced. */
  function Process(d: Disk, n: Node, base: string, stack: seq<string>): Result<Node, IncludeError>
    decreases Unvisited(d, stack), 1, n, 0
  {
    match n
    case Document(children) =>
      var r := ProcessAll(d, children, base, stack, false);
      if r.Err? then Err(r.error) else Ok(Document(r.value))
    case Mapping(tag, entries) =>
      var r := ProcessEntries(d, entries, base, stack);
      if r.Err? then Err(r.error) else Ok(Mapping(tag, r.value))
    case Sequence(tag, items) =>
      var r := ProcessAll(d, items, base, stack, true);
      if r.Err? then Err(r.error) else Ok(Sequence(tag, r.value))
    case _ => Ok(n)
  }

  function ProcessAll(d: Disk, s: seq<Node>, base: string, stack: seq<string>, candidates: bool): Result<seq<Node>, IncludeError>
    decreases Unvisited(d, stack), 1, s
  {
    if s == [] then Ok([]) else
    var first := if candidates && IsInclude(s[0]) then ResolveInclude(d, s[0].value, base, stack)
                 else Process(d, s[0], base, stack);
    if first.Err? then Err(first.error) else
    var others := ProcessAll(d, s[1..], base, stack, candidates);
    if others.Err? then Err(others.error) else Ok([first.value] + others.value)
  }

  function ProcessEntries(d: Disk, s: seq<Entry>, base: string, stack: seq<string>): Result<seq<Entry>, IncludeError>
    decreases Unvisited(d, stack), 1, s
  {
    if s == [] then Ok([]) else
    var first := ProcessEntry(d, s[0], base, stack);
    if first.Err? then Err(first.error) else
    var others := ProcessEntries(d, s[1..], base, stack);
    if others.Err? then Err(others.error) else Ok([first.value] + others.value)
  }

  function ProcessEntry(d: Disk, e: Entry, base: string, stack: seq<string>): Result<Entry, IncludeError>
    decreases Unvisited(d, stack), 1, e
  {
    var v := if IsInclude(e.value) then ResolveInclude(d, e.value.value, base, stack)
             else Process(d, e.value, base, stack);
    if v.Err? then Err(v.error) else Ok(Entry(e.key, v.value))
  }

  function ResolveInclude(d: Disk, reference: string, base: string, stack: seq<string>): Result<Node, IncludeError>
    decreases Unvisited(d, stack), 0
  {
    var path := d.join(base, reference);
    if path in stack then Err(Cycle(stack, path))
    else if path !in d.files then Err(Unreadable(path))
    else
      match d.files[path]
      case Unparsable => Err(ParseError(path))
      case Empty => Err(EmptyFile(path))
      case Holding(root) =>
        assert path in Unvisited(d, stack) && path !in Unvisited(d, stack + [path]);
        Process(d, root, d.dir(path), stack + [path])
  }

  // ---- which files are reached

  /** The paths written in n where an include is resolved. */
  function References(n: Node): set<string>
    decreases n, 0
  {
    match n
    case Document(children) => ReferencesInAll(children, false)
    case Mapping(_, entries) => ReferencesInEntries(entries)
    case Sequence(_, items) => ReferencesInAll(items, true)
    case _ => {}
  }

  function ReferencesInAll(s: seq<Node>, candidates: bool): set<string>
    decreases s
  {
    if s == [] then {}
    else (if candidates && IsInclude(s[0]) then {s[0].value} else References(s[0])) + ReferencesInAll(s[1..], candidates)
  }

  function ReferencesInEntries(s: seq<Entry>): set<string>
    decreases s
  {
    if s == [] then {} else ReferencesInEntry(s[0]) + ReferencesInEntries(s[1..])
  }

  function ReferencesInEntry(e: Entry): set<string>
    decreases e
  {
    if IsInclude(e.value) then {e.value.value} else References(e.value)
  }

  predicate Holds(d: Disk, path: string) {
    path in d.files && d.files[path].Holding?
  }

  /** path leads from n, in a file of directory base, from include to include. */
  ghost predicate Leads(d: Disk, n: Node, base: string, path: seq<string>)
    decreases |path|
  {
    && path != []
    && (exists r <- References(n) :: d.join(base, r) == path[0])
    && (|path| > 1 ==> Holds(d, path[0]) && Leads(d, d.files[path[0]].root, d.dir(path[0]), path[1..]))
  }

  /** It ends at a file that cannot be included or comes back to one it came by. */
  ghost predicate Fails(d: Disk, path: seq<string>, stack: seq<string>)
    requires path != []
  {
    var last := path[|path| - 1];
    !Holds(d, last) || last in stack || last in path[..|path| - 1]
  }

  // ---- when expansion succeeds

  lemma {:induction false} ProcessesAllReferences(d: Disk, n: Node, base: string, stack: seq<string>)
    ensures Process(d, n, base, stack).Ok? <==> forall r <- References(n) :: ResolveInclude(d, r, base, stack).Ok?
    decreases n, 0
  {
    match n
    case Document(children) => ProcessesAll(d, children, base, stack, false);
    case Mapping(_, entries) => ProcessesEntries(d, entries, base, stack);
    case Sequence(_, items) => ProcessesAll(d, items, base, stack, true);
    case _ =>
  }

  lemma {:induction false} ProcessesAll(d: Disk, s: seq<Node>, base: string, stack: seq<string>, candidates: bool)
    ensures ProcessAll(d, s, base, stack, candidates).Ok? <==>
            forall r <- ReferencesInAll(s, candidates) :: ResolveInclude(d, r, base, stack).Ok?
    decreases s
  {
    if s != [] {
      ProcessesAllReferences(d, s[0], base, stack);
      ProcessesAll(d, s[1..], base, stack, candidates);
      assert candidates && IsInclude(s[0]) ==> s[0].value in ReferencesInAll(s, candidates);
      assert ReferencesInAll(s[1..], candidates) <= ReferencesInAll(s, candidates);
    }
  }

  lemma {:induction false} ProcessesEntries(d: Disk, s: seq<Entry>, base: string, stack: seq<string>)
    ensures ProcessEntries(d, s, base, stack).Ok? <==>
            forall r <- ReferencesInEntries(s) :: ResolveInclude(d, r, base, stack).Ok?
    decreases s
  {
    if s != [] {
      ProcessesEntry(d, s[0], base, stack);
      ProcessesEntries(d, s[1..], base, stack);
    }
  }

  lemma {:induction false} ProcessesEntry(d: Disk, e: Entry, base: string, stack: seq<string>)
    ensures ProcessEntry(d, e, base, stack).Ok? <==>
            forall r <- ReferencesInEntry(e) :: ResolveInclude(d, r, base, stack).Ok?
    decreases e
  {
    ProcessesAllReferences(d, e.value, base, stack);
    assert IsInclude(e.value) ==> e.value.value in ReferencesInEntry(e);
  }

  lemma {:induction false} FailingPath(d: Disk, n: Node, base: string, stack: seq<string>) returns (path: seq<string>)
    requires Process(d, n, base, stack).Err?
    ensures Leads(d, n, base, path) && Fails(d, path, stack)
    decreases Unvisited(d, stack)
  {
    ProcessesAllReferences(d, n, base, stack);
    var r :| r in References(n) && ResolveInclude(d, r, base, stack).Err?;
    var first := d.join(base, r);
    path := [first];
    if first !in stack && Holds(d, first) {
      assert first in Unvisited(d, stack) && first !in Unvisited(d, stack + [first]);
      var rest := FailingPath(d, d.files[first].root, d.dir(first), stack + [first]);
      path := [first] + rest;
      assert path[1..] == rest;
      assert path[|path| - 1] == rest[|rest| - 1];
      assert path[..|path| - 1] == [first] + rest[..|rest| - 1];
    }
  }

  lemma {:induction false} NoFailingPath(d: Disk, n: Node, base: string, stack: seq<string>, path: seq<string>)
    requires Process(d, n, base, stack).Ok? && Leads(d, n, base, path)
    ensures !Fails(d, path, stack)
    decreases |path|
  {
    ProcessesAllReferences(d, n, base, stack);
    var r :| r in References(n) && d.join(base, r) == path[0];
    assert ResolveInclude(d, r, base, stack).Ok?;
    if |path| > 1 {
      NoFailingPath(d, d.files[path[0]].root, d.dir(path[0]), stack + [path[0]], path[1..]);
      assert path[|path| - 1] == path[1..][|path| - 2];
      assert path[..|path| - 1] == [path[0]] + path[1..][..|path| - 2];
    }
  }

  /** Expansion fails exactly when some way from include to include comes to a file that is
      missing, unparsable or empty, back to a file it came by, or to one on the stack. */
  lemma ExpansionFailsIff(d: Disk, n: Node, base: string, stack: seq<string>)
    ensures Process(d, n, base, stack).Err? <==> exists path :: Leads(d, n, base, path) && Fails(d, path, stack)
  {
    if Process(d, n, base, stack).Err? {
      var path := FailingPath(d, n, base, stack);
    } else if path :| Leads(d, n, base, path) && Fails(d, path, stack) {
      NoFailingPath(d, n, base, stack, path);
      assert false;
    }
  }

  /** Expansion of a file as the loader starts it, with the file itself on the stack. */
  function ProcessFile(d: Disk, file: string, n: Node): Result<Node, IncludeError> {
    Process(d, n, d.dir(file), [file])
  }

  /** So a file that includes itself, directly or by way of others, is a cycle. */
  lemma FileExpansionFailsIff(d: Disk, file: string, n: Node)
    ensures ProcessFile(d, file, n).Err? <==>
            exists path :: Leads(d, n, d.dir(file), path)
                           && var last := path[|path| - 1];
                              !Holds(d, last) || last == file || last in path[..|path| - 1]
  {
    ExpansionFailsIff(d, n, d.dir(file), [file]);
    if ProcessFile(d, file, n).Err? {
      var path := FailingPath(d, n, d.dir(file), [file]);
      assert path[|path| - 1] in [file] ==> path[|path| - 1] == file;
    }
    if path :| Leads(d, n, d.dir(file), path)
               && (!Holds(d, path[|path| - 1]) || path[|path| - 1] == file || path[|path| - 1] in path[..|path| - 1]) {
      assert Fails(d, path, [file]);
    }
  }

  // ---- what expansion gives

  /** What n holds at a path of positions, through mappings, sequences and documents. */
  function Part(n: Node, q: seq<nat>): Option<Node>
    decreases |q|
  {
    if q == [] then Some(n)
    else
      var parts := Parts(n);
      if q[0] < |parts| then Part(parts[q[0]], q[1..]) else None
  }

  function Parts(n: Node): seq<Node> {
    match n
    case Mapping(_, entries) => seq(|entries|, i requires 0 <= i < |entries| => entries[i].value)
    case Sequence(_, items) => items
    case Document(children) => children
    case _ => []
  }

  /** An include is resolved where it is a value of a mapping or an item of a sequence. */
  predicate ResolvedIn(n: Node) {
    n.Mapping? || n.Sequence?
  }

  predicate IncludeAt(n: Node, q: seq<nat>) {
    && q != [] && Part(n, q[..|q| - 1]).Some? && ResolvedIn(Part(n, q[..|q| - 1]).value)
    && Part(n, q).Some? && IsInclude(Part(n, q).value)
  }

  /** The same kind, tag and keys, in the same order, or the same scalar. */
  predicate Alike(x: Node, y: Node) {
    match x
    case Mapping(tag, entries) =>
      && y.Mapping? && y.tag == tag && |y.entries| == |entries|
      && forall i :: 0 <= i < |entries| ==> y.entries[i].key == entries[i].key
    case Sequence(tag, items) => y.Sequence? && y.tag == tag && |y.items| == |items|
    case Document(children) => y.Document? && |y.children| == |children|
    case _ => y == x
  }

  lemma {:induction false} ProcessedAll(d: Disk, s: seq<Node>, base: string, stack: seq<string>, candidates: bool)
    requires ProcessAll(d, s, base, stack, candidates).Ok?
    ensures var r := ProcessAll(d, s, base, stack, candidates).value;
            |r| == |s| && forall i :: 0 <= i < |s| ==> Processed(d, s[i], base, stack, candidates, r[i])
  {
    if s != [] {
      ProcessedAll(d, s[1..], base, stack, candidates);
      var r, rest := ProcessAll(d, s, base, stack, candidates).value, ProcessAll(d, s[1..], base, stack, candidates).value;
      forall i | 0 <= i < |s|
        ensures Processed(d, s[i], base, stack, candidates, r[i])
      {
        assert i > 0 ==> s[i] == s[1..][i - 1] && r[i] == rest[i - 1];
      }
    }
  }

  lemma ProcessedEntry(d: Disk, e: Entry, base: string, stack: seq<string>)
    requires ProcessEntry(d, e, base, stack).Ok?
    ensures var r := ProcessEntry(d, e, base, stack).value;
            r.key == e.key && Processed(d, e.value, base, stack, true, r.value)
  {
    if IsInclude(e.value) {
      var v := ResolveInclude(d, e.value.value, base, stack);
      assert v.Ok? && ProcessEntry(d, e, base, stack) == Ok(Entry(e.key, v.value));
      Inlined(d, e.value.value, base, stack);
    }
  }

  lemma Inlined(d: Disk, reference: string, base: string, stack: seq<string>)
    requires ResolveInclude(d, reference, base, stack).Ok?
    ensures InlinedFrom(d, reference, base, stack, ResolveInclude(d, reference, base, stack).value)
  {
  }

  lemma {:induction false} ProcessedEntries(d: Disk, s: seq<Entry>, base: string, stack: seq<string>)
    requires ProcessEntries(d, s, base, stack).Ok?
    ensures var r := ProcessEntries(d, s, base, stack).value;
            && |r| == |s|
            && forall i :: 0 <= i < |s| ==> r[i].key == s[i].key && Processed(d, s[i].value, base, stack, true, r[i].value)
  {
    if s != [] {
      ProcessedEntries(d, s[1..], base, stack);
      var r, rest := ProcessEntries(d, s, base, stack).value, ProcessEntries(d, s[1..], base, stack).value;
      var first := ProcessEntry(d, s[0], base, stack).value;
      assert r == [first] + rest;
      ProcessedEntry(d, s[0], base, stack);
      forall i | 0 <= i < |s|
        ensures r[i].key == s[i].key && Processed(d, s[i].value, base, stack, true, r[i].value)
      {
        assert i > 0 ==> s[i] == s[1..][i - 1] && r[i] == rest[i - 1];
      }
    }
  }

  ghost predicate Processed(d: Disk, x: Node, base: string, stack: seq<string>, candidate: bool, y: Node) {
    if candidate && IsInclude(x) then InlinedFrom(d, x.value, base, stack, y) else Process(d, x, base, stack) == Ok(y)
  }

  /** y is the expansion of the file written as reference, from that file's directory. */
  ghost predicate InlinedFrom(d: Disk, reference: string, base: string, stack: seq<string>, y: Node) {
    var path := d.join(base, reference);
    path !in stack && Holds(d, path) && Process(d, d.files[path].root, d.dir(path), stack + [path]) == Ok(y)
  }

  lemma ProcessedParts(d: Disk, n: Node, base: string, stack: seq<string>)
    requires Process(d, n, base, stack).Ok?
    ensures var r := Process(d, n, base, stack).value;
            && Alike(n, r) && |Parts(r)| == |Parts(n)|
            && forall i :: 0 <= i < |Parts(n)| ==> Processed(d, Parts(n)[i], base, stack, ResolvedIn(n), Parts(r)[i])
  {
    match n
    case Document(children) => ProcessedAll(d, children, base, stack, false);
    case Mapping(_, entries) => ProcessedEntries(d, entries, base, stack);
    case Sequence(_, items) => ProcessedAll(d, items, base, stack, true);
    case _ =>
  }

  /** An include has no parts, so no path leads through one: the result has everything of the
      tree that is no include in its place, and in the place of an include the expansion of
      the file it names. */
  lemma {:induction false} ExpansionByPaths(d: Disk, n: Node, base: string, stack: seq<string>, q: seq<nat>)
    requires Process(d, n, base, stack).Ok? && Part(n, q).Some?
    ensures var there := Part(Process(d, n, base, stack).value, q);
            && there.Some?
            && if IncludeAt(n, q) then InlinedFrom(d, Part(n, q).value.value, base, stack, there.value)
               else Alike(Part(n, q).value, there.value)
    decreases |q|
  {
    ProcessedParts(d, n, base, stack);
    if q != [] {
      var x, rest := Parts(n)[q[0]], q[1..];
      if ResolvedIn(n) && IsInclude(x) {
        assert rest == [] && q[..|q| - 1] == [];
      } else {
        ExpansionByPaths(d, x, base, stack, rest);
        if rest == [] {
          assert q[..|q| - 1] == [];
        } else {
          assert q[..|q| - 1][0] == q[0] && q[..|q| - 1][1..] == rest[..|rest| - 1];
        }
      }
    }
  }

  /** A tree without includes expands to itself. */
  lemma {:induction false} NothingToExpand(d: Disk, n: Node, base: string, stack: seq<string>)
    requires References(n) == {}
    ensures Process(d, n, base, stack) == Ok(n)
    decreases n, 0
  {
    match n
    case Document(children) => NothingInAll(d, children, base, stack, false);
    case Mapping(_, entries) => NothingInEntries(d, entries, base, stack);
    case Sequence(_, items) => NothingInAll(d, items, base, stack, true);
    case _ =>
  }

  lemma FirstReferences(s: seq<Node>, candidates: bool)
    requires s != []
    ensures if candidates && IsInclude(s[0]) then s[0].value in ReferencesInAll(s, candidates)
            else References(s[0]) <= ReferencesInAll(s, candidates)
    ensures ReferencesInAll(s[1..], candidates) <= ReferencesInAll(s, candidates)
  {
  }

  lemma EntryReferences(e: Entry)
    ensures if IsInclude(e.value) then e.value.value in ReferencesInEntry(e) else References(e.value) <= ReferencesInEntry(e)
  {
  }

  lemma {:induction false} NothingInAll(d: Disk, s: seq<Node>, base: string, stack: seq<string>, candidates: bool)
    requires ReferencesInAll(s, candidates) == {}
    ensures ProcessAll(d, s, base, stack, candidates) == Ok(s)
    decreases s
  {
    if s != [] {
      FirstReferences(s, candidates);
      NothingToExpand(d, s[0], base, stack);
      NothingInAll(d, s[1..], base, stack, candidates);
      assert s == [s[0]] + s[1..];
    }
  }

  lemma {:induction false} NothingInEntries(d: Disk, s: seq<Entry>, base: string, stack: seq<string>)
    requires ReferencesInEntries(s) == {}
    ensures ProcessEntries(d, s, base, stack) == Ok(s)
    decreases s
  {
    if s != [] {
      NothingInEntry(d, s[0], base, stack);
      NothingInEntries(d, s[1..], base, stack);
      assert s == [s[0]] + s[1..];
    }
  }

  lemma {:induction false} NothingInEntry(d: Disk, e: Entry, base: string, stack: seq<string>)
    requires ReferencesInEntry(e) == {}
    ensures ProcessEntry(d, e, base, stack) == Ok(e)
    decreases e
  {
    EntryReferences(e);
    NothingToExpand(d, e.value, base, stack);
  }

  // ---- what expansion leaves

  /** What stands in the place of an include has no include left in it. */
  ghost predicate Clean(r: Node) {
    !IsInclude(r) && References(r) == {}
  }

  lemma {:induction false} CleanIffReferences(d: Disk, n: Node, base: string, stack: seq<string>)
    requires Process(d, n, base, stack).Ok?
    ensures References(Process(d, n, base, stack).value) == {} <==>
            forall r <- References(n) :: ResolveInclude(d, r, base, stack).Ok? && Clean(ResolveInclude(d, r, base, stack).value)
    ensures IsInclude(Process(d, n, base, stack).value) <==> IsInclude(n)
    decreases n, 0
  {
    match n
    case Document(children) => CleanIffAll(d, children, base, stack, false);
    case Mapping(_, entries) => CleanIffEntries(d, entries, base, stack);
    case Sequence(_, items) => CleanIffAll(d, items, base, stack, true);
    case _ =>
  }

  lemma {:induction false} CleanIffAll(d: Disk, s: seq<Node>, base: string, stack: seq<string>, candidates: bool)
    requires ProcessAll(d, s, base, stack, candidates).Ok?
    ensures ReferencesInAll(ProcessAll(d, s, base, stack, candidates).value, candidates) == {} <==>
            forall r <- ReferencesInAll(s, candidates) ::
              ResolveInclude(d, r, base, stack).Ok? && Clean(ResolveInclude(d, r, base, stack).value)
    decreases s
  {
    if s != [] {
      if !(candidates && IsInclude(s[0])) {
        CleanIffReferences(d, s[0], base, stack);
      }
      CleanIffAll(d, s[1..], base, stack, candidates);
      var out := ProcessAll(d, s, base, stack, candidates).value;
      assert out[1..] == ProcessAll(d, s[1..], base, stack, candidates).value;
    }
  }

  lemma {:induction false} CleanIffEntries(d: Disk, s: seq<Entry>, base: string, stack: seq<string>)
    requires ProcessEntries(d, s, base, stack).Ok?
    ensures ReferencesInEntries(ProcessEntries(d, s, base, stack).value) == {} <==>
            forall r <- ReferencesInEntries(s) ::
              ResolveInclude(d, r, base, stack).Ok? && Clean(ResolveInclude(d, r, base, stack).value)
    decreases s
  {
    if s != [] {
      CleanIffEntry(d, s[0], base, stack);
      CleanIffEntries(d, s[1..], base, stack);
      var out := ProcessEntries(d, s, base, stack).value;
      assert out[1..] == ProcessEntries(d, s[1..], base, stack).value;
    }
  }

  lemma {:induction false} CleanIffEntry(d: Disk, e: Entry, base: string, stack: seq<string>)
    requires ProcessEntry(d, e, base, stack).Ok?
    ensures ReferencesInEntry(ProcessEntry(d, e, base, stack).value) == {} <==>
            forall r <- ReferencesInEntry(e) ::
              ResolveInclude(d, r, base, stack).Ok? && Clean(ResolveInclude(d, r, base, stack).value)
    decreases e
  {
    if IsInclude(e.value) {
      assert e.value.value in ReferencesInEntry(e);
    } else {
      CleanIffReferences(d, e.value, base, stack);
    }
  }

  /** The file path leads to is nothing but an include itself. */
  ghost predicate LeadsToBareInclude(d: Disk, n: Node, base: string, path: seq<string>) {
    && Leads(d, n, base, path) && Holds(d, path[|path| - 1])
    && IsInclude(d.files[path[|path| - 1]].root)
  }

  lemma {:induction false} LeftoverPath(d: Disk, n: Node, base: string, stack: seq<string>) returns (path: seq<string>)
    requires Process(d, n, base, stack).Ok? && References(Process(d, n, base, stack).value) != {}
    ensures LeadsToBareInclude(d, n, base, path)
    decreases Unvisited(d, stack)
  {
    ProcessesAllReferences(d, n, base, stack);
    CleanIffReferences(d, n, base, stack);
    var r :| r in References(n) && !Clean(ResolveInclude(d, r, base, stack).value);
    var first := d.join(base, r);
    var root := d.files[first].root;
    path := [first];
    if !IsInclude(root) {
      CleanIffReferences(d, root, d.dir(first), stack + [first]);
      assert first in Unvisited(d, stack) && first !in Unvisited(d, stack + [first]);
      var rest := LeftoverPath(d, root, d.dir(first), stack + [first]);
      path := [first] + rest;
      assert path[1..] == rest && path[|path| - 1] == rest[|rest| - 1];
    }
  }

  lemma {:induction false} BareIncludeStays(d: Disk, n: Node, base: string, stack: seq<string>, path: seq<string>)
    requires Process(d, n, base, stack).Ok? && LeadsToBareInclude(d, n, base, path)
    ensures References(Process(d, n, base, stack).value) != {}
    decreases |path|
  {
    ProcessesAllReferences(d, n, base, stack);
    CleanIffReferences(d, n, base, stack);
    var r :| r in References(n) && d.join(base, r) == path[0];
    assert ResolveInclude(d, r, base, stack).Ok?;
    var root := d.files[path[0]].root;
    CleanIffReferences(d, root, d.dir(path[0]), stack + [path[0]]);
    if |path| > 1 {
      assert path[1..][|path| - 2] == path[|path| - 1];
      BareIncludeStays(d, root, d.dir(path[0]), stack + [path[0]], path[1..]);
    }
    assert !Clean(ResolveInclude(d, r, base, stack).value);
  }

  /** A successful expansion leaves an include exactly when it inlined a file that is nothing
      but an include. */
  lemma ExpansionLeavesIncludesIff(d: Disk, n: Node, base: string, stack: seq<string>)
    requires Process(d, n, base, stack).Ok?
    ensures References(Process(d, n, base, stack).value) != {} <==> exists path :: LeadsToBareInclude(d, n, base, path)
  {
    if References(Process(d, n, base, stack).value) != {} {
      var path := LeftoverPath(d, n, base, stack);
    } else if path :| LeadsToBareInclude(d, n, base, path) {
      BareIncludeStays(d, n, base, stack, path);
      assert false;
    }
  }
}
