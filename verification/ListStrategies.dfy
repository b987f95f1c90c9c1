/** Which lists the registered strategies merge, by the keys that lead to them
    (internal/blueprint/resolve.go:196-230, internal/server/server.go:118-166). */
module ListStrategies {
  import opened Prelude
  import opened MergeStrategy
  import opened Merge

  /** The path as strategies are looked up by it. */
  function Dotted(path: string, q: seq<string>): string
    decreases |q|
  {
    if q == [] then path else Dotted(ChildPath(path, q[0]), q[1..])
  }

  /** A key that neither is empty nor has what ends a segment. */
  predicate Segment(key: string) {
    key != "" && NoSeparator(key)
  }

  predicate NoSeparator(s: string) {
    forall i :: 0 <= i < |s| ==> !Separator(s[i])
  }

  predicate Segments(q: seq<string>) {
    forall i :: 0 <= i < |q| ==> Segment(q[i])
  }

  predicate Ends(q: seq<string>, tail: seq<string>) {
    |tail| <= |q| && q[|q| - |tail|..] == tail
  }

  lemma {:induction false} DottedFrom(path: string, q: seq<string>)
    requires q != []
    ensures Dotted(path, q) == ChildPath(Dotted(path, q[..|q| - 1]), q[|q| - 1])
    decreases |q|
  {
    if |q| > 1 {
      DottedFrom(ChildPath(path, q[0]), q[1..]);
      assert q[1..][..|q| - 2] == q[..|q| - 1][1..];
    }
  }

  lemma {:induction false} DottedNotEmpty(q: seq<string>)
    requires q != [] && Segments(q)
    ensures Dotted("", q) != ""
  {
    DottedFrom("", q);
  }

  /** A path of several keys is the path before its last, a dot and its last. */
  lemma DottedMore(q: seq<string>)
    requires |q| > 1 && Segments(q)
    ensures Dotted("", q) == Dotted("", q[..|q| - 1]) + "." + q[|q| - 1]
    ensures Segments(q[..|q| - 1]) && Segment(q[|q| - 1])
  {
    DottedFrom("", q);
    DottedNotEmpty(q[..|q| - 1]);
  }

  lemma DottedOne(q: seq<string>)
    requires |q| == 1 && Segments(q)
    ensures Dotted("", q) == q[0] && Segment(q[0])
  {
    DottedFrom("", q);
  }

  lemma EndKey(a: string, b: string, x: string, s: string)
    requires '.' !in b && '.' !in s
    ensures EndsWith(a + "." + b, x + "." + s) <==> b == s && EndsWith(a, x)
    ensures a + "." + b == x + "." + s <==> b == s && a == x
  {
    var t, u := a + "." + b, x + "." + s;
    if EndsWith(t, u) {
      SameLast(a, b, x, s);
    }
    if b == s && |x| <= |a| {
      assert t[|t| - |u|..] == a[|a| - |x|..] + "." + b;
      assert u[..|x|] == x && (a[|a| - |x|..] + "." + b)[..|x|] == a[|a| - |x|..];
    }
    if t == u {
      assert t[|t| - |u|..] == u;
      SameLast(a, b, x, s);
      assert a == t[..|a|] && x == u[..|x|];
    }
  }

  lemma SameLast(a: string, b: string, x: string, s: string)
    requires '.' !in b && '.' !in s && EndsWith(a + "." + b, x + "." + s)
    ensures b == s && |x| <= |a|
  {
    if |b| < |s| {
      DotInLonger(a, b, x, s);
    } else if |s| < |b| {
      DotInShorter(a, b, x, s);
    } else {
      var t, u := a + "." + b, x + "." + s;
      assert t[|t| - |u|..][|x| + 1..] == t[|a| + 1..] == b;
      assert u[|x| + 1..] == s;
    }
  }

  lemma DotInLonger(a: string, b: string, x: string, s: string)
    requires EndsWith(a + "." + b, x + "." + s) && |b| < |s|
    ensures '.' in s
  {
    var t, u := a + "." + b, x + "." + s;
    var i := |s| - |b| - 1;
    assert s[i] == u[|x| + 1 + i] == t[|t| - |u|..][|x| + 1 + i] == t[|a|] == '.';
  }

  lemma DotInShorter(a: string, b: string, x: string, s: string)
    requires EndsWith(a + "." + b, x + "." + s) && |s| < |b|
    ensures '.' in b
  {
    var t, u := a + "." + b, x + "." + s;
    var i := |b| - |s| - 1;
    assert b[i] == t[|a| + 1 + i] == t[|t| - |u|..][|x|] == u[|x|] == '.';
  }

  lemma DotIn(text: string, tail: string)
    ensures EndsWith(text, tail) && '.' in tail ==> '.' in text
  {
    if EndsWith(text, tail) && '.' in tail {
      var i :| 0 <= i < |tail| && tail[i] == '.';
      assert text[|text| - |tail|..][i] == '.';
    }
  }

  /** A path ends like this exactly when its last keys do. */
  lemma PathEndsOne(q: seq<string>, key: string)
    requires q != [] && Segments(q) && Segment(key)
    ensures EndsWith(Dotted("", q), "." + key) <==> |q| > 1 && q[|q| - 1] == key
    ensures Dotted("", q) == key <==> q == [key]
  {
    NoDot(key);
    if |q| == 1 {
      DottedOne(q);
      NoDot(q[0]);
      DotIn(q[0], "." + key);
      assert ("." + key)[0] == '.';
    } else {
      DottedMore(q);
      var a, b := Dotted("", q[..|q| - 1]), q[|q| - 1];
      NoDot(b);
      EndKey(a, b, "", key);
      assert "" + "." + key == "." + key;
      assert (a + "." + b)[|a|] == '.';
    }
  }

  lemma NoDot(key: string)
    requires Segment(key)
    ensures '.' !in key && '/' !in key
  {
    assert Separator('.') && Separator('/');
  }

  /** The same with more keys before: rest stands for what those make of the front. */
  lemma PathEndsMore(q: seq<string>, x: string, key: string)
    requires q != [] && Segments(q) && Segment(key) && '.' in x
    ensures EndsWith(Dotted("", q), x + "." + key) <==>
            |q| > 1 && q[|q| - 1] == key && EndsWith(Dotted("", q[..|q| - 1]), x)
  {
    NoDot(key);
    if |q| == 1 {
      DottedOne(q);
      NoDot(q[0]);
      DotIn(q[0], x + "." + key);
      assert (x + "." + key)[|x|] == '.';
    } else {
      DottedMore(q);
      NoDot(q[|q| - 1]);
      EndKey(Dotted("", q[..|q| - 1]), q[|q| - 1], x, key);
    }
  }

  lemma PathIs(q: seq<string>, x: string, key: string)
    requires q != [] && Segments(q) && Segment(key)
    ensures Dotted("", q) == x + "." + key <==> |q| > 1 && q[|q| - 1] == key && Dotted("", q[..|q| - 1]) == x
  {
    NoDot(key);
    if |q| == 1 {
      DottedOne(q);
      NoDot(q[0]);
      assert (x + "." + key)[|x|] == '.';
    } else {
      DottedMore(q);
      NoDot(q[|q| - 1]);
      EndKey(Dotted("", q[..|q| - 1]), q[|q| - 1], x, key);
    }
  }

  // ---- the one pattern with a star

  lemma {:induction false} GlobFront(literal: string, pattern: string, text: string)
    requires '*' !in literal && '/' !in literal && '/' !in text
    ensures Glob(literal + pattern, text) <==> literal <= text && Glob(pattern, text[|literal|..])
    decreases |literal|
  {
    if literal == "" {
      assert literal + pattern == pattern && text[0..] == text;
    } else {
      assert (literal + pattern)[1..] == literal[1..] + pattern && literal[0] in literal;
      if text != "" {
        assert text[0] in text;
        GlobFront(literal[1..], pattern, text[1..]);
        assert literal == [literal[0]] + literal[1..] && text == [text[0]] + text[1..];
        if literal <= text {
          assert text[1..][|literal| - 1..] == text[|literal|..];
        }
      }
    }
  }

  ghost predicate SegmentThen(i: nat, pattern: string, text: string) {
    i <= |text| && NoSeparator(text[..i]) && Glob(pattern, text[i..])
  }

  lemma {:induction false} GlobStarIff(pattern: string, text: string)
    ensures Glob("*" + pattern, text) <==> exists i: nat :: SegmentThen(i, pattern, text)
    decreases |text|
  {
    assert ("*" + pattern)[1..] == pattern;
    if Glob(pattern, text) {
      assert text[0..] == text && text[..0] == "";
      assert SegmentThen(0, pattern, text);
    } else if text != "" {
      GlobStarIff(pattern, text[1..]);
      forall i: nat | 0 < i <= |text|
        ensures SegmentThen(i, pattern, text) <==> !Separator(text[0]) && SegmentThen(i - 1, pattern, text[1..])
      {
        assert text[..i] == [text[0]] + text[1..][..i - 1] && text[i..] == text[1..][i - 1..];
      }
      if Glob("*" + pattern, text) {
        var i: nat :| SegmentThen(i, pattern, text[1..]);
        assert SegmentThen(i + 1, pattern, text);
      }
      if i: nat :| SegmentThen(i, pattern, text) {
        assert i > 0 by {
          assert text[0..] == text;
        }
        assert SegmentThen(i - 1, pattern, text[1..]);
      }
    } else {
      assert text[0..] == text;
    }
  }

  lemma GlobAfterStar(rest: string)
    requires '/' !in rest
    ensures Glob("*" + ".start", rest) <==> exists app :: rest == app + ".start" && NoSeparator(app)
  {
    GlobStarIff(".start", rest);
    forall i: nat | i <= |rest|
      ensures Glob(".start", rest[i..]) <==> rest == rest[..i] + ".start"
    {
      LiteralIs(".start", rest[i..]);
      assert rest == rest[..i] + rest[i..];
      assert rest == rest[..i] + ".start" ==> rest[i..] == ".start";
    }
    if app :| rest == app + ".start" && NoSeparator(app) {
      assert rest[..|app|] == app;
      assert SegmentThen(|app|, ".start", rest);
    }
  }

  lemma LiteralIs(literal: string, text: string)
    requires '*' !in literal && '/' !in literal && '/' !in text
    ensures Glob(literal, text) <==> text == literal
  {
    GlobFront(literal, "", text);
    assert literal + "" == literal;
    assert literal <= text ==> text == literal + text[|literal|..];
  }

  /** The start list of an application, at any path without slashes. */
  lemma GlobAppStart(text: string)
    requires '/' !in text
    ensures Glob(APP_START, text) <==>
            exists app :: text == "apps" + "." + app + "." + "start" && NoSeparator(app)
  {
    assert APP_START == "apps." + ("*" + ".start");
    GlobFront("apps.", "*" + ".start", text);
    forall app: string
      ensures "apps." + (app + ".start") == "apps" + "." + app + "." + "start"
    {
    }
    if "apps." <= text {
      var rest := text[5..];
      assert text == "apps." + rest;
      GlobAfterStar(rest);
      forall app
        ensures rest == app + ".start" <==> text == "apps." + (app + ".start")
      {
        assert ("apps." + (app + ".start"))[5..] == app + ".start";
      }
    }
  }

  lemma {:induction false} NoSlash(q: seq<string>)
    requires q != [] && Segments(q)
    ensures '/' !in Dotted("", q)
    decreases |q|
  {
    NoDot(q[|q| - 1]);
    if |q| == 1 {
      DottedOne(q);
    } else {
      DottedMore(q);
      NoSlash(q[..|q| - 1]);
    }
  }

  lemma AppStartAt(q: seq<string>)
    requires q != [] && Segments(q)
    ensures Glob(APP_START, Dotted("", q)) <==> |q| == 3 && q[0] == "apps" && q[2] == "start"
  {
    NoSlash(q);
    GlobAppStart(Dotted("", q));
    if app :| Dotted("", q) == "apps" + "." + app + "." + "start" && NoSeparator(app) {
      AppStartOnlyAt(q, app);
    }
    if |q| == 3 && q[0] == "apps" && q[2] == "start" {
      DottedThree(q);
      assert Segment(q[1]);
    }
  }

  lemma DottedThree(q: seq<string>)
    requires |q| == 3 && Segments(q)
    ensures Dotted("", q) == q[0] + "." + q[1] + "." + q[2]
  {
    DottedMore(q);
    DottedMore(q[..2]);
    DottedOne(q[..2][..1]);
  }

  lemma AppStartOnlyAt(q: seq<string>, app: string)
    requires q != [] && Segments(q) && NoSeparator(app)
    requires Dotted("", q) == "apps" + "." + app + "." + "start"
    ensures |q| == 3 && q[0] == "apps" && q[2] == "start"
  {
    Literals();
    PathIs(q, "apps" + "." + app, "start");
    DottedMore(q);
    assert '.' !in app by {
      assert Separator('.');
    }
    AppIs(q[..|q| - 1], app);
  }

  lemma AppIs(front: seq<string>, app: string)
    requires front != [] && Segments(front) && '.' !in app && Dotted("", front) == "apps" + "." + app
    ensures |front| == 2 && front[0] == "apps"
  {
    assert Dotted("", front)[4] == '.';
    if |front| == 1 {
      DottedOne(front);
      NoDot(front[0]);
    } else {
      var f, last := front[..|front| - 1], front[|front| - 1];
      DottedMore(front);
      NoDot(last);
      EndKey(Dotted("", f), last, "apps", app);
      OnlyApps(f);
    }
  }

  lemma OnlyApps(f: seq<string>)
    requires f != [] && Segments(f) && Dotted("", f) == "apps"
    ensures f == ["apps"]
  {
    Literals();
    PathEndsOne(f, "apps");
  }

  lemma Literals()
    ensures Segment("apps") && Segment("start") && Segment("*") && Segment("claimSpec")
    ensures Segment("accessModes") && Segment(INIT_SCRIPTS)
  {
  }

  // ---- the strategies

  lemma TwoAt(q: seq<string>, a: string, b: string)
    requires q != [] && Segments(q) && Segment(a) && Segment(b)
    ensures EndsWith(Dotted("", q), "." + (a + "." + b)) || Dotted("", q) == a + "." + b <==> Ends(q, [a, b])
  {
    assert "." + (a + "." + b) == ("." + a) + "." + b && ("." + a)[0] == '.';
    PathEndsMore(q, "." + a, b);
    PathIs(q, a, b);
    if |q| > 1 {
      var front := q[..|q| - 1];
      DottedMore(q);
      PathEndsOne(front, a);
      assert q[|q| - 2..] == [q[|q| - 2], q[|q| - 1]];
      assert front[|front| - 1] == q[|q| - 2];
      assert |q| == 2 ==> front == [q[0]];
    }
  }

  lemma ThreeAt(q: seq<string>, a: string, b: string, c: string)
    requires q != [] && Segments(q) && Segment(a) && Segment(b) && Segment(c)
    ensures EndsWith(Dotted("", q), "." + (a + "." + b + "." + c)) || Dotted("", q) == a + "." + b + "." + c <==>
            Ends(q, [a, b, c])
  {
    var x := "." + (a + "." + b);
    assert "." + (a + "." + b + "." + c) == x + "." + c && x[0] == '.';
    PathEndsMore(q, x, c);
    PathIs(q, a + "." + b, c);
    if |q| > 1 {
      DottedMore(q);
      TwoAt(q[..|q| - 1], a, b);
      assert |q| > 2 ==> q[|q| - 3..] == [q[|q| - 3], q[|q| - 2], q[|q| - 1]];
      assert |q| > 2 ==> q[..|q| - 1][|q| - 3..] == [q[|q| - 3], q[|q| - 2]];
    }
  }

  lemma Ends2(q: seq<string>, a: string, b: string)
    ensures Ends(q, [a, b]) ==> q[|q| - 1] == b
  {
    assert |q| > 1 ==> q[|q| - 2..][1] == q[|q| - 1];
  }

  lemma Ends3(q: seq<string>, a: string, b: string, c: string)
    ensures Ends(q, [a, b, c]) ==> q[|q| - 1] == c
  {
    assert |q| > 2 ==> q[|q| - 3..][2] == q[|q| - 1];
  }

  lemma Among(modes: string, start: string, scripts: string, key: string, path: string)
    requires key != modes && key != start
    requires path == scripts || EndsWith(path, "." + scripts) ==> key == scripts
    requires key == scripts ==> !(EndsWith(path, "." + modes) || path == modes) && !(EndsWith(path, "." + start) || path == start)
                                && !Glob(start, path)
    ensures StrategyAmong(modes, start, scripts, key, path) ==
            if key == scripts then Some(ByScriptName)
            else if EndsWith(path, "." + modes) || path == modes || EndsWith(path, "." + start) || path == start || Glob(start, path)
            then Some(ChildWins) else None
  {
  }

  lemma KeyIsNoPath(key: string, x: string, y: string)
    requires Segment(key)
    ensures key != x + "." + y
  {
    NoDot(key);
    assert (x + "." + y)[|x|] == '.';
  }

  /** For any three registered keys of one, two and three segments. */
  lemma StrategyAmongKeys(q: seq<string>, a: string, b: string, c: string, d: string, e: string, scripts: string)
    requires q != [] && Segments(q) && b != scripts && e != scripts
    requires Segment(a) && Segment(b) && Segment(c) && Segment(d) && Segment(e) && Segment(scripts)
    requires var start := c + "." + d + "." + e;
             Glob(start, Dotted("", q)) ==> |q| == 3 && q[2] == e
    ensures var start := c + "." + d + "." + e;
            StrategyAmong(a + "." + b, start, scripts, q[|q| - 1], Dotted("", q)) ==
            if q[|q| - 1] == scripts then Some(ByScriptName)
            else if Ends(q, [a, b]) || Ends(q, [c, d, e]) || Glob(start, Dotted("", q)) then Some(ChildWins) else None
  {
    var key, modes, start := q[|q| - 1], a + "." + b, c + "." + d + "." + e;
    KeyIsNoPath(key, a, b);
    KeyIsNoPath(key, c + "." + d, e);
    PathEndsOne(q, scripts);
    TwoAt(q, a, b);
    ThreeAt(q, c, d, e);
    Ends2(q, a, b);
    Ends3(q, c, d, e);
    Among(modes, start, scripts, key, Dotted("", q));
  }

  lemma Constants()
    ensures ACCESS_MODES == "claimSpec" + "." + "accessModes"
    ensures APP_START == "apps" + "." + "*" + "." + "start"
    ensures INIT_SCRIPTS == "initScripts" && "accessModes" != INIT_SCRIPTS && "start" != INIT_SCRIPTS
  {
    assert "initScripts"[0] == 'i' && "accessModes"[0] == 'a' && "start"[0] == 's';
  }

  /** A list is merged by script names exactly when its key is initScripts, wherever it
      stands. The child's list wins under accessModes of a claimSpec anywhere, and for the
      start command of any application at the top. All other lists are the child's as they
      are. */
  lemma StrategyByKeys(q: seq<string>)
    requires q != [] && Segments(q)
    ensures StrategyFor(q[|q| - 1], Dotted("", q)) ==
            if q[|q| - 1] == INIT_SCRIPTS then Some(ByScriptName)
            else if || Ends(q, ["claimSpec", "accessModes"])
                    || (|q| == 3 && q[0] == "apps" && q[2] == "start") || Ends(q, ["apps", "*", "start"])
            then Some(ChildWins) else None
  {
    Literals();
    Constants();
    AppStartAt(q);
    StrategyAmongKeys(q, "claimSpec", "accessModes", "apps", "*", "start", INIT_SCRIPTS);
  }
}
