/** Which strategy merges a list (internal/blueprint/resolve.go:196-230) and the strategies
    the server registers (internal/server/server.go:118-166). */
module MergeStrategy {
  import opened Prelude
  import opened Yaml
  import opened Values
  import Scripts = InitScripts

  datatype Strategy = ChildWins | ByScriptName

  const ACCESS_MODES := "claimSpec.accessModes"
  const APP_START := "apps.*.start"
  const INIT_SCRIPTS := "initScripts"

  const REGISTERED: map<string, Strategy> :=
    map[ACCESS_MODES := ChildWins, APP_START := ChildWins, INIT_SCRIPTS := ByScriptName]

  function Apply(s: Strategy, parent: seq<Value>, child: seq<Value>): seq<Value> {
    match s
    case ChildWins => child
    case ByScriptName => Scripts.Merge(parent, child)
  }

  predicate EndsWith(s: string, suffix: string) {
    |suffix| <= |s| && s[|s| - |suffix|..] == suffix
  }

  /** Shell-style matching of dotted paths, where * stands for part of one segment. A slash
      in a path ends a segment too. */
  predicate Glob(pattern: string, path: string)
    decreases |pattern| + |path|
  {
    if pattern == "" then path == ""
    else if pattern[0] == '*' then
      Glob(pattern[1..], path) || (path != "" && !Separator(path[0]) && Glob(pattern, path[1..]))
    else path != "" && SameChar(pattern[0], path[0]) && Glob(pattern[1..], path[1..])
  }

  predicate Separator(c: char) {
    c == '.' || c == '/'
  }

  predicate SameChar(c: char, d: char) {
    c == d || (Separator(c) && Separator(d))
  }

  ghost predicate BySuffix(strategies: map<string, Strategy>, k: string, path: string) {
    k in strategies && EndsWith(path, "." + k)
  }

  ghost predicate ByGlob(strategies: map<string, Strategy>, k: string, path: string) {
    k in strategies && '*' in k && Glob(k, path)
  }

  /** r is an answer for some order in which the strategies may be looked through. */
  ghost predicate MayFind(strategies: map<string, Strategy>, key: string, path: string, r: Option<Strategy>) {
    if path in strategies then r == Some(strategies[path])
    else if exists k :: BySuffix(strategies, k, path) then
      exists k :: BySuffix(strategies, k, path) && r == Some(strategies[k])
    else if exists k :: ByGlob(strategies, k, path) then
      exists k :: ByGlob(strategies, k, path) && r == Some(strategies[k])
    else if key in strategies then r == Some(strategies[key])
    else r == None
  }

  /** The loops go through the strategies in any order. */
  method FindStrategy(strategies: map<string, Strategy>, key: string, path: string) returns (r: Option<Strategy>)
    ensures MayFind(strategies, key, path, r)
  {
    if path in strategies {
      return Some(strategies[path]);
    }
    var todo := strategies.Keys;
    while todo != {}
      invariant todo <= strategies.Keys
      invariant forall k <- strategies.Keys - todo :: !BySuffix(strategies, k, path)
    {
      var k :| k in todo;
      todo := todo - {k};
      if EndsWith(path, "." + k) {
        assert BySuffix(strategies, k, path);
        return Some(strategies[k]);
      }
    }
    assert forall k :: !BySuffix(strategies, k, path);
    todo := strategies.Keys;
    while todo != {}
      invariant todo <= strategies.Keys
      invariant forall k <- strategies.Keys - todo :: !ByGlob(strategies, k, path)
    {
      var k :| k in todo;
      todo := todo - {k};
      if '*' in k {
        if Glob(k, path) {
          assert ByGlob(strategies, k, path);
          return Some(strategies[k]);
        }
      }
    }
    assert forall k :: !ByGlob(strategies, k, path);
    if key in strategies {
      return Some(strategies[key]);
    }
    r := None;
  }

  function Strategies(modes: string, start: string, scripts: string): map<string, Strategy> {
    map[modes := ChildWins, start := ChildWins, scripts := ByScriptName]
  }

  function StrategyAmong(modes: string, start: string, scripts: string, key: string, path: string): Option<Strategy> {
    if path == scripts then Some(ByScriptName)
    else if path == modes || path == start then Some(ChildWins)
    else if EndsWith(path, "." + scripts) then Some(ByScriptName)
    else if EndsWith(path, "." + modes) || EndsWith(path, "." + start) || Glob(start, path) then Some(ChildWins)
    else if key == scripts then Some(ByScriptName)
    else if key == modes || key == start then Some(ChildWins)
    else None
  }

  /** The strategy for a list under key at path, among those registered. */
  function StrategyFor(key: string, path: string): Option<Strategy> {
    StrategyAmong(ACCESS_MODES, APP_START, INIT_SCRIPTS, key, path)
  }

  lemma OrderIsIrrelevant(modes: string, start: string, scripts: string, key: string, path: string, r: Option<Strategy>)
    requires modes != start && start != scripts && scripts != modes
    requires '*' in start && '*' !in modes && '*' !in scripts
    requires !(EndsWith(path, "." + scripts) && (EndsWith(path, "." + modes) || EndsWith(path, "." + start)))
    ensures MayFind(Strategies(modes, start, scripts), key, path, r)
            <==> r == StrategyAmong(modes, start, scripts, key, path)
  {
    var all := Strategies(modes, start, scripts);
    assert BySuffix(all, scripts, path) <==> EndsWith(path, "." + scripts);
    assert BySuffix(all, modes, path) <==> EndsWith(path, "." + modes);
    assert BySuffix(all, start, path) <==> EndsWith(path, "." + start);
    assert ByGlob(all, start, path) <==> Glob(start, path);
    assert !ByGlob(all, scripts, path) && !ByGlob(all, modes, path);
  }

  lemma LastButOne(s: string, suffix: string)
    requires EndsWith(s, suffix) && 2 <= |suffix|
    ensures s[|s| - 2] == suffix[|suffix| - 2]
  {
    assert s[|s| - 2] == s[|s| - |suffix|..][|suffix| - 2];
  }

  /** With the strategies the server registers the order in which they are looked through
      makes no difference. */
  lemma RegisteredOrderIsIrrelevant(key: string, path: string, r: Option<Strategy>)
    ensures MayFind(REGISTERED, key, path, r) <==> r == StrategyFor(key, path)
  {
    var scripts, modes, start := "." + INIT_SCRIPTS, "." + ACCESS_MODES, "." + APP_START;
    assert scripts[|scripts| - 2] == 't' && modes[|modes| - 2] == 'e' && start[|start| - 2] == 'r';
    if EndsWith(path, scripts) {
      LastButOne(path, scripts);
      if EndsWith(path, modes) {
        LastButOne(path, modes);
      }
      if EndsWith(path, start) {
        LastButOne(path, start);
      }
    }
    assert APP_START[5] == '*';
    assert REGISTERED == Strategies(ACCESS_MODES, APP_START, INIT_SCRIPTS);
    assert INIT_SCRIPTS[0] != ACCESS_MODES[0] && APP_START[0] != INIT_SCRIPTS[0] && ACCESS_MODES[0] != APP_START[0];
    OrderIsIrrelevant(ACCESS_MODES, APP_START, INIT_SCRIPTS, key, path, r);
  }

  // The literal parts of the one registered pattern with a star.
  const APP_PREFIX := "apps."
  const APP_SUFFIX := ".start"

  lemma {:induction false} GlobLiteral(literal: string, pattern: string, rest: string)
    requires '*' !in literal
    ensures Glob(literal + pattern, literal + rest) <==> Glob(pattern, rest)
  {
    if literal == "" {
      assert literal + pattern == pattern && literal + rest == rest;
    } else {
      assert (literal + pattern)[1..] == literal[1..] + pattern;
      assert (literal + rest)[1..] == literal[1..] + rest;
      GlobLiteral(literal[1..], pattern, rest);
    }
  }

  lemma {:induction false} GlobStar(segment: string, pattern: string, rest: string)
    requires forall c <- segment :: !Separator(c)
    requires Glob(pattern, rest)
    ensures Glob("*" + pattern, segment + rest)
  {
    assert ("*" + pattern)[1..] == pattern;
    if segment == "" {
      assert segment + rest == rest;
    } else {
      assert (segment + rest)[1..] == segment[1..] + rest;
      assert segment[0] in segment;
      GlobStar(segment[1..], pattern, rest);
    }
  }

  /** The start command of any application is merged by the child winning. */
  lemma AppStartMatches(app: string)
    requires forall c <- app :: !Separator(c)
    ensures Glob(APP_START, APP_PREFIX + app + APP_SUFFIX)
  {
    GlobLiteral(APP_SUFFIX, "", "");
    assert APP_SUFFIX + "" == APP_SUFFIX;
    GlobStar(app, APP_SUFFIX, APP_SUFFIX);
    GlobLiteral(APP_PREFIX, "*" + APP_SUFFIX, app + APP_SUFFIX);
    assert APP_START == APP_PREFIX + ("*" + APP_SUFFIX);
    assert APP_PREFIX + app + APP_SUFFIX == APP_PREFIX + (app + APP_SUFFIX);
  }
}
