/** Blueprints kept by organizations in the database: loaded together with the files, or
    built one at a time for a request (internal/blueprint/orgstore.go). */
module OrgBlueprints {
  import opened Prelude
  import opened Yaml
  import opened Inheritance
  import opened CelDisplay
  import Values
  import Merge
  import Revision

  /** yaml is None when the text does not parse. */
  datatype Row = Row(org: string, name: string, yaml: Option<Node>)

  datatype OrgError =
    | InvalidYaml(row: Row)
    | NotAMapping(row: Row)
    | Duplicate(row: Row)
    | NoTemplate(template: string, row: Row)
    | Unmergeable(row: Row)

  /** The value of the first entry of that key. */
  function FirstValue(s: seq<Entry>, key: string): Option<Node> {
    if s == [] then None
    else if Text(s[0].key) == key then Some(s[0].value)
    else FirstValue(s[1..], key)
  }

  /** The mapping that describes the blueprint: the root, or what stands under its key
      blueprint. */
  function ValidationNode(n: Node): Option<Node> {
    match n
    case Document(children) => if children == [] then None else ValidationNode(children[0])
    case Mapping(_, entries) => Some(FirstValue(entries, "blueprint").GetOr(n))
    case _ => None
  }

  function TemplateField(s: seq<Pair<Values.Keyed>>): string {
    if s == [] then ""
    else if s[0].key == "template" then (if s[0].value.value.Str? then s[0].value.value.text else "")
    else TemplateField(s[1..])
  }

  function TemplateOf(own: Node): string {
    var v := Values.Decode(own);
    if v.Some? && v.value.Dict? then TemplateField(v.value.fields) else ""
  }

  function FromRow(row: Row): Result<Blueprint, OrgError> {
    if row.yaml.None? then Err(InvalidYaml(row)) else
    var n := ValidationNode(row.yaml.value);
    if n.None? then Err(NotAMapping(row)) else
    var own := Restore(n.value);
    Ok(Blueprint(row.name, row.org, TemplateOf(own), own, None, [], None))
  }

  function RowKey(row: Row): string {
    OrgKey(row.org, row.name)
  }

  /** Which mapping describes the blueprint: of a document its first child, of a mapping what
      stands under the first key blueprint if there is one, else the mapping itself. Nothing
      else describes one. */
  lemma DescribingMapping(n: Node)
    ensures n.Document? ==> ValidationNode(n) == if n.children == [] then None else ValidationNode(n.children[0])
    ensures n.Mapping? ==>
              && (forall i :: FirstAt(n.entries, "blueprint", i) ==> ValidationNode(n) == Some(n.entries[i].value))
              && ("blueprint" !in Keys(n.entries) ==> ValidationNode(n) == Some(n))
    ensures !n.Document? && !n.Mapping? ==> ValidationNode(n) == None
  {
    if n.Mapping? {
      FirstValueAt(n.entries, "blueprint");
    }
  }

  lemma {:induction false} FirstValueAt(s: seq<Entry>, key: string)
    ensures forall i :: FirstAt(s, key, i) ==> FirstValue(s, key) == Some(s[i].value)
    ensures FirstValue(s, key).None? <==> key !in Keys(s)
  {
    if s != [] {
      FirstValueAt(s[1..], key);
      assert Keys(s) == [Text(s[0].key)] + Keys(s[1..]);
      forall i | FirstAt(s, key, i)
        ensures FirstValue(s, key) == Some(s[i].value)
      {
        if i > 0 {
          assert FirstAt(s[1..], key, i - 1) by {
            forall j | 0 <= j < i - 1
              ensures Text(s[1..][j].key) != key
            {
              assert s[1..][j] == s[j + 1];
            }
          }
        }
      }
    }
  }

  /** The template of a blueprint that decodes is the text under the key template, none when
      there is no such key or it holds no text. One that does not decode has none. */
  lemma TemplateIs(own: Node)
    ensures Values.Decode(own).None? || !Values.Decode(own).value.Dict? ==> TemplateOf(own) == ""
    ensures own.Mapping? && Values.Decode(own).Some? ==>
              && ("template" !in Keys(own.entries) ==> TemplateOf(own) == "")
              && forall i: nat :: i < |own.entries| && Text(own.entries[i].key) == "template" ==>
                   HoldsTemplate(own.entries[i].value, TemplateOf(own))
  {
    if own.Mapping? && Values.Decode(own).Some? {
      forall i: nat | i < |own.entries| && Text(own.entries[i].key) == "template"
        ensures HoldsTemplate(own.entries[i].value, TemplateOf(own))
      {
        TemplateUnder(own, i);
      }
      if "template" !in Keys(own.entries) {
        WithoutTemplate(own);
      }
    }
  }

  ghost predicate HoldsTemplate(n: Node, template: string) {
    template == match Values.Decode(n) case Some(Str(text)) => text case _ => ""
  }

  lemma TemplateFrom(own: Node)
    requires own.Mapping? && Values.Decode(own).Some?
    ensures Values.ScalarKeys(own.entries) && Values.DecodeEntries(own.entries).Some?
    ensures var v := ValuesOf(Values.DecodeEntries(own.entries).value, "template");
            TemplateOf(own) == if v != [] && v[0].value.Str? then v[0].value.text else ""
  {
    var fields := Values.DecodeEntries(own.entries).value;
    SortIsStable(fields, "template");
    FirstOfKey(SortByKey(fields));
  }

  lemma TemplateUnder(own: Node, i: nat)
    requires own.Mapping? && Values.Decode(own).Some? && i < |own.entries| && Text(own.entries[i].key) == "template"
    ensures HoldsTemplate(own.entries[i].value, TemplateOf(own))
  {
    TemplateFrom(own);
    FieldAt(own.entries, i);
  }

  lemma WithoutTemplate(own: Node)
    requires own.Mapping? && Values.Decode(own).Some? && "template" !in Keys(own.entries)
    ensures TemplateOf(own) == ""
  {
    TemplateFrom(own);
    var fields := Values.DecodeEntries(own.entries).value;
    ValuesPresent(fields, "template");
    forall i | 0 <= i < |fields|
      ensures fields[i].key != "template"
    {
      assert Keys(own.entries)[i] == fields[i].key;
    }
  }

  lemma {:induction false} FirstOfKey(s: seq<Pair<Values.Keyed>>)
    ensures var v := ValuesOf(s, "template");
            TemplateField(s) == if v != [] && v[0].value.Str? then v[0].value.text else ""
  {
    if s != [] {
      FirstOfKey(s[1..]);
    }
  }

  lemma {:induction false} FieldAt(s: seq<Entry>, i: nat)
    requires Values.ScalarKeys(s) && Distinct(Keys(s)) && Values.DecodeEntries(s).Some? && i < |s|
    ensures Values.Decode(s[i].value).Some?
    ensures ValuesOf(Values.DecodeEntries(s).value, Text(s[i].key))
            == [Values.Keyed(s[i].key.tag, Values.Decode(s[i].value).value)]
  {
    var fields, rest := Values.DecodeEntries(s).value, Values.DecodeEntries(s[1..]).value;
    assert fields[1..] == rest && s[0] in s;
    forall j | 0 <= j < |s[1..]|
      ensures Text(s[1..][j].key) != Text(s[0].key)
    {
      assert Keys(s)[j + 1] != Keys(s)[0];
    }
    ValuesPresent(rest, Text(s[0].key));
    if i > 0 {
      assert Distinct(Keys(s[1..])) by {
        assert forall a :: 0 <= a < |s[1..]| ==> Keys(s[1..])[a] == Keys(s)[a + 1];
      }
      FieldAt(s[1..], i - 1);
      assert s[1..][i - 1] == s[i];
    }
  }

  // ---- loading

  predicate Loadable(m: Blueprints, rows: seq<Row>) {
    rows == [] ||
    var init, row := rows[..|rows| - 1], rows[|rows| - 1];
    Loadable(m, init) && FromRow(row).Ok? && RowKey(row) !in WithRows(m, init)
  }

  function WithRows(m: Blueprints, rows: seq<Row>): Blueprints {
    if rows == [] then m else
    var init, row := rows[..|rows| - 1], rows[|rows| - 1];
    var bp := FromRow(row);
    if bp.Ok? then WithRows(m, init)[RowKey(row) := bp.value] else WithRows(m, init)
  }

  method LoadOrgBlueprints(bm: BlueprintManager, rows: seq<Row>) returns (r: Result<(), OrgError>)
    modifies bm
    ensures r.Ok? <==> Loadable(old(bm.rawBlueprints), rows)
    ensures r.Ok? ==> bm.rawBlueprints == WithRows(old(bm.rawBlueprints), rows)
  {
    for i := 0 to |rows|
      invariant Loadable(old(bm.rawBlueprints), rows[..i])
      invariant bm.rawBlueprints == WithRows(old(bm.rawBlueprints), rows[..i])
    {
      var row := rows[i];
      assert rows[..i + 1][..i] == rows[..i];
      if !Loadable(old(bm.rawBlueprints), rows[..i + 1]) {
        LoadableUpTo(old(bm.rawBlueprints), rows, i + 1);
      }
      if row.yaml.None? {
        return Err(InvalidYaml(row));
      }
      var node := ValidationNode(row.yaml.value);
      if node.None? {
        return Err(NotAMapping(row));
      }
      var own := Restore(node.value);
      var key := OrgKey(row.org, row.name);
      if key in bm.rawBlueprints {
        return Err(Duplicate(row));
      }
      bm.rawBlueprints := bm.rawBlueprints[key := Blueprint(row.name, row.org, TemplateOf(own), own, None, [], None)];
    }
    assert rows[..|rows|] == rows;
    r := Ok(());
  }

  lemma {:induction false} LoadableUpTo(m: Blueprints, rows: seq<Row>, i: nat)
    requires i <= |rows| && !Loadable(m, rows[..i])
    ensures !Loadable(m, rows)
    decreases |rows|
  {
    if i < |rows| {
      var init := rows[..|rows| - 1];
      assert init[..i] == rows[..i];
      LoadableUpTo(m, init, i);
    } else {
      assert rows[..i] == rows;
    }
  }

  lemma {:induction false} RowLoaded(m: Blueprints, rows: seq<Row>, row: Row)
    requires Loadable(m, rows) && row in rows
    ensures FromRow(row).Ok? && RowKey(row) in WithRows(m, rows) && WithRows(m, rows)[RowKey(row)] == FromRow(row).value
  {
    var init, last := rows[..|rows| - 1], rows[|rows| - 1];
    if row != last {
      assert rows == init + [last];
      assert row in init;
      RowLoaded(m, init, row);
    }
  }

  lemma {:induction false} LoadedUnresolved(m: Blueprints, rows: seq<Row>)
    requires Unresolved(m)
    ensures Unresolved(WithRows(m, rows))
  {
    if rows != [] {
      LoadedUnresolved(m, rows[..|rows| - 1]);
    }
  }

  // ---- building for a request

  function TemplateParent(m: Blueprints, org: string, name: string): Option<Blueprint> {
    if org != "" && OrgKey(org, name) in m then Some(m[OrgKey(org, name)])
    else if name in m then Some(m[name])
    else None
  }

  /** Against blueprints already resolved. */
  method BuildOrgRawBlueprint(bm: BlueprintManager, row: Row) returns (r: Result<Blueprint, OrgError>)
    ensures r == Build(bm.rawBlueprints, row)
  {
    if row.yaml.None? {
      return Err(InvalidYaml(row));
    }
    var node := ValidationNode(row.yaml.value);
    if node.None? {
      return Err(NotAMapping(row));
    }
    var own := Restore(node.value);
    var template := TemplateOf(own);
    var bp := Blueprint(row.name, row.org, template, own, Some(own), [], None);
    if template == "" {
      return Ok(bp.(chain := [row.name], revision := Some(Revision.Stream(Some(own)))));
    }
    var parent := TemplateParent(bm.rawBlueprints, row.org, template);
    if parent.None? {
      return Err(NoTemplate(template, row));
    }
    var merged := Merge.MergeYAMLNodes(parent.value.node, own);
    if merged.Err? {
      return Err(Unmergeable(row));
    }
    r := Ok(bp.(node := merged.value, chain := parent.value.chain + [row.name],
                revision := Some(Revision.Stream(Some(merged.value)))));
  }

  function Build(resolved: Blueprints, row: Row): Result<Blueprint, OrgError> {
    var loaded := FromRow(row);
    if loaded.Err? then Err(loaded.error) else
    var bp := loaded.value;
    if bp.template == "" then Ok(WithRoot(bp, row.name)) else
    var parent := TemplateParent(resolved, row.org, bp.template);
    if parent.None? then Err(NoTemplate(bp.template, row))
    else if !Merge.Mergeable(parent.value.node, bp.node, "") then Err(Unmergeable(row))
    else Ok(WithParent(parent.value, bp, row.name))
  }

  /** After a load that succeeded, a row built for a request is what the load made of it,
      content and revision, except that its chain ends with the bare name. */
  lemma RequestAgreesWithLoad(files: Blueprints, rows: seq<Row>, row: Row)
    requires Unresolved(files) && Loadable(files, rows) && row in rows
    requires AllResolve(WithRows(files, rows))
    ensures var all := Resolved(WithRows(files, rows));
            var built := Build(all, row);
            && RowKey(row) in all && built.Ok?
            && var loaded := all[RowKey(row)];
               && loaded.chain != []
               && built.value == loaded.(chain := loaded.chain[..|loaded.chain| - 1] + [row.name])
               && loaded.chain[|loaded.chain| - 1] == RowKey(row)
  {
    var m := WithRows(files, rows);
    RowLoaded(files, rows, row);
    LoadedUnresolved(files, rows);
    var key, bp := RowKey(row), m[RowKey(row)];
    assert Resolve(m, key, {}).Ok?;
    if bp.template != "" {
      var p := ParentKey(m, bp);
      ResolveStep(m, key, {});
      assert {} + {key} == {key};
      ResolveAnywhere(m, p, {key}, {});
    }
  }

  // ---- scope

  predicate SlashFree(s: string) {
    '/' !in s
  }

  /** Files are known by their name, rows by organization and name, and neither these nor
      the templates named contain a slash. */
  ghost predicate WellScoped(m: Blueprints) {
    forall key <- m ::
      var bp := m[key];
      && SlashFree(bp.template)
      && (bp.org == "" ==> SlashFree(key))
      && (bp.org != "" ==> key == OrgKey(bp.org, bp.name) && SlashFree(bp.org) && SlashFree(bp.name))
  }

  lemma FirstSlash(org: string, name: string)
    requires SlashFree(org)
    ensures OrgKey(org, name)[|org|] == '/' && forall i :: 0 <= i < |org| ==> OrgKey(org, name)[i] != '/'
  {
    forall i | 0 <= i < |org|
      ensures OrgKey(org, name)[i] != '/'
    {
      assert OrgKey(org, name)[i] == org[i];
    }
  }

  lemma OrgKeyInjective(org: string, name: string, org': string, name': string)
    requires SlashFree(org) && SlashFree(org') && OrgKey(org, name) == OrgKey(org', name')
    ensures org == org' && name == name'
  {
    var key := OrgKey(org, name);
    FirstSlash(org, name);
    FirstSlash(org', name');
    assert org == key[..|org|] && org' == key[..|org'|];
    assert name == key[|org| + 1..] && name' == key[|org'| + 1..];
  }

  lemma ParentScope(m: Blueprints, bp: Blueprint)
    requires WellScoped(m) && SlashFree(bp.template) && SlashFree(bp.org) && ParentKey(m, bp) in m
    ensures var parent := m[ParentKey(m, bp)];
            parent.org == "" || (bp.org != "" && parent.org == bp.org)
  {
    var key := ParentKey(m, bp);
    var parent := m[key];
    if parent.org != "" {
      assert key[|parent.org|] == '/';
      assert '/' in key;
      assert key == OrgKey(bp.org, bp.template);
      OrgKeyInjective(bp.org, bp.template, parent.org, parent.name);
    }
  }

  /** Whatever a blueprint inherits from belongs to its own organization or to all. */
  lemma {:induction false} AncestorsInScope(m: Blueprints, path: seq<string>)
    requires WellScoped(m) && Walk(m, path)
    ensures forall i :: 0 <= i < |path| ==> m[path[i]].org == "" || m[path[i]].org == m[path[0]].org
  {
    if |path| > 1 {
      assert Linked(m, path, 0);
      WalkTail(m, path);
      ParentScope(m, m[path[0]]);
      AncestorsInScope(m, path[1..]);
      assert forall i :: 0 < i < |path| ==> path[i] == path[1..][i - 1];
    }
  }
}
