/** Matching texts with wildcards, whatever their case (internal/workspace/query.go:617-652).
    Case is folded as for ASCII letters, which is all that label values contain. */
module Globs {
  function LowerChar(c: char): char {
    if 'A' <= c <= 'Z' then (c as int + 32) as char else c
  }

  function Lower(s: string): (r: string)
    ensures |r| == |s| && forall i :: 0 <= i < |s| ==> r[i] == LowerChar(s[i])
  {
    seq(|s|, i requires 0 <= i < |s| => LowerChar(s[i]))
  }

  predicate EqualFold(a: string, b: string) {
    Lower(a) == Lower(b)
  }

  /** value matches pattern, where * stands for any text and ? for any character. */
  ghost predicate Glob(pattern: string, value: string)
    decreases |pattern|
  {
    if pattern == "" then value == ""
    else if pattern[0] == '*' then exists i :: 0 <= i <= |value| && Glob(pattern[1..], value[i..])
    else value != "" && (pattern[0] == '?' || pattern[0] == value[0]) && Glob(pattern[1..], value[1..])
  }

  method GlobMatchLower(pattern: string, value: string) returns (matched: bool)
    ensures matched <==> Glob(pattern, value)
    decreases |pattern|
  {
    if pattern == "" {
      return value == "";
    }
    if pattern[0] == '*' {
      if |pattern| == 1 {
        assert Glob(pattern[1..], value[|value|..]);
        return true;
      }
      for i := 0 to |value| + 1
        invariant forall j :: 0 <= j < i ==> !Glob(pattern[1..], value[j..])
      {
        var rest := GlobMatchLower(pattern[1..], value[i..]);
        if rest {
          return true;
        }
      }
      return false;
    } else if pattern[0] == '?' {
      if value == "" {
        return false;
      }
      matched := GlobMatchLower(pattern[1..], value[1..]);
    } else {
      if value == "" || value[0] != pattern[0] {
        return false;
      }
      matched := GlobMatchLower(pattern[1..], value[1..]);
    }
  }

  /** A pattern in two parts matches what is one text of the first part and one of the
      second. */
  lemma {:induction false} GlobConcat(p: string, q: string, value: string)
    ensures Glob(p + q, value) <==> exists i :: 0 <= i <= |value| && Glob(p, value[..i]) && Glob(q, value[i..])
    decreases |p|
  {
    if p == "" {
      assert p + q == q && value[..0] == "" && value[0..] == value;
    } else {
      assert (p + q)[0] == p[0] && (p + q)[1..] == p[1..] + q;
      if p[0] == '*' {
        GlobConcatStar(p, q, value);
      } else if value != "" {
        GlobConcat(p[1..], q, value[1..]);
        if i :| 0 <= i <= |value[1..]| && Glob(p[1..], value[1..][..i]) && Glob(q, value[1..][i..]) {
          assert value[..i + 1][1..] == value[1..][..i] && value[1..][i..] == value[i + 1..];
          if p[0] == '?' || p[0] == value[0] {
            assert Glob(p, value[..i + 1]) && Glob(q, value[i + 1..]);
          }
        }
        if i :| 0 <= i <= |value| && Glob(p, value[..i]) && Glob(q, value[i..]) {
          assert value[..i][1..] == value[1..][..i - 1] && value[1..][i - 1..] == value[i..];
          assert 0 <= i - 1 <= |value[1..]| && Glob(p[1..], value[1..][..i - 1]);
        }
      }
    }
  }

  lemma {:induction false} GlobConcatStar(p: string, q: string, value: string)
    requires p != "" && p[0] == '*'
    ensures Glob(p + q, value) <==> exists i :: 0 <= i <= |value| && Glob(p, value[..i]) && Glob(q, value[i..])
    decreases |p|, 0
  {
    assert (p + q)[0] == p[0] && (p + q)[1..] == p[1..] + q;
    if Glob(p + q, value) {
      var k :| 0 <= k <= |value| && Glob(p[1..] + q, value[k..]);
      GlobConcat(p[1..], q, value[k..]);
      var j :| 0 <= j <= |value[k..]| && Glob(p[1..], value[k..][..j]) && Glob(q, value[k..][j..]);
      assert value[..k + j][k..] == value[k..][..j] && value[k..][j..] == value[k + j..];
      assert Glob(p, value[..k + j]) && Glob(q, value[k + j..]);
    }
    if i :| 0 <= i <= |value| && Glob(p, value[..i]) && Glob(q, value[i..]) {
      var k :| 0 <= k <= |value[..i]| && Glob(p[1..], value[..i][k..]);
      assert value[k..][..i - k] == value[..i][k..] && value[k..][i - k..] == value[i..];
      GlobConcat(p[1..], q, value[k..]);
      assert Glob(p[1..] + q, value[k..]);
    }
  }

  predicate NoWildcard(s: string) {
    '*' !in s && '?' !in s
  }

  lemma {:induction false} GlobLiteral(pattern: string, value: string)
    requires NoWildcard(pattern)
    ensures Glob(pattern, value) <==> pattern == value
  {
    if pattern != "" && value != "" {
      GlobLiteral(pattern[1..], value[1..]);
      assert pattern == [pattern[0]] + pattern[1..] && value == [value[0]] + value[1..];
    }
  }

  lemma LowerKeepsWildcards(s: string)
    requires NoWildcard(s)
    ensures NoWildcard(Lower(s))
  {
    forall i | 0 <= i < |s|
      ensures Lower(s)[i] != '*' && Lower(s)[i] != '?'
    {
      assert s[i] in s;
    }
  }

  ghost predicate GlobFold(pattern: string, value: string) {
    Glob(Lower(pattern), Lower(value))
  }

  method GlobMatch(pattern: string, value: string) returns (matched: bool)
    ensures matched <==> GlobFold(pattern, value)
  {
    matched := GlobMatchLower(Lower(pattern), Lower(value));
  }

  /** A pattern without wildcards matches what differs from it in case at the most. */
  lemma GlobFoldLiteral(pattern: string, value: string)
    requires NoWildcard(pattern)
    ensures GlobFold(pattern, value) <==> EqualFold(pattern, value)
  {
    LowerKeepsWildcards(pattern);
    GlobLiteral(Lower(pattern), Lower(value));
  }

  /** The pieces patterns are made of; GlobConcat puts them together. */
  lemma GlobPieces(c: char, value: string)
    ensures Glob("", value) <==> value == ""
    ensures Glob("*", value)
    ensures Glob("?", value) <==> |value| == 1
    ensures c != '*' && c != '?' ==> (Glob([c], value) <==> value == [c])
  {
    assert Glob("*"[1..], value[|value|..]);
    assert "?"[1..] == "" && [c][1..] == "";
    assert value != "" ==> value == [value[0]] + value[1..];
  }
}
