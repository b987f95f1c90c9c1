/** YAML trees as the parser hands them to the blueprint manager. A string is the sequence of
    its bytes, one character each, and a tag is kept in its short form. Anchors, comments,
    quoting style and positions are left out: nothing modelled here depends on them. */
module Yaml {
  datatype Node =
    | Scalar(tag: string, value: string)
    | Mapping(tag: string, entries: seq<Entry>)
    | Sequence(tag: string, items: seq<Node>)
    | Document(children: seq<Node>)
    | Alias(name: string, target: Node)

  datatype Entry = Entry(key: Node, value: Node)

  /** The Value field of a node, by which a mapping's entries are told apart. */
  function Text(n: Node): string {
    match n
    case Scalar(_, value) => value
    case Alias(name, _) => name
    case _ => ""
  }

  function Keys(entries: seq<Entry>): (keys: seq<string>)
    ensures |keys| == |entries|
    ensures forall i :: 0 <= i < |entries| ==> keys[i] == Text(entries[i].key)
  {
    seq(|entries|, i requires 0 <= i < |entries| => Text(entries[i].key))
  }

  /** The first entry of that key. */
  predicate FirstAt(s: seq<Entry>, key: string, i: int) {
    0 <= i < |s| && Text(s[i].key) == key && forall j :: 0 <= j < i ==> Text(s[j].key) != key
  }

  predicate Distinct<T(==)>(s: seq<T>) {
    forall i, j :: 0 <= i < j < |s| ==> s[i] != s[j]
  }

  /** Bytewise order of strings. */
  predicate Before(a: string, b: string) {
    b != "" && (a == "" || a[0] < b[0] || (a[0] == b[0] && Before(a[1..], b[1..])))
  }

  lemma {:induction false} BeforeIsStrictOrder(a: string, b: string)
    ensures !(Before(a, b) && Before(b, a))
    ensures Before(a, b) || a == b || Before(b, a)
    ensures a == b ==> !Before(a, b)
  {
    if a != "" && b != "" && a[0] == b[0] {
      BeforeIsStrictOrder(a[1..], b[1..]);
      assert a == [a[0]] + a[1..] && b == [b[0]] + b[1..];
    }
  }

  lemma {:induction false} BeforeIsTransitive(a: string, b: string, c: string)
    requires Before(a, b) && Before(b, c)
    ensures Before(a, c)
  {
    if a != "" && a[0] == b[0] == c[0] {
      BeforeIsTransitive(a[1..], b[1..], c[1..]);
    }
  }

  datatype Pair<T> = Pair(key: string, value: T)

  /** Puts p before the first pair whose key does not come before its own. */
  function Insert<T>(p: Pair<T>, s: seq<Pair<T>>): seq<Pair<T>> {
    if s == [] || !Before(s[0].key, p.key) then [p] + s else [s[0]] + Insert(p, s[1..])
  }

  /** A stable sort by key. */
  function SortByKey<T>(s: seq<Pair<T>>): seq<Pair<T>> {
    if s == [] then [] else Insert(s[0], SortByKey(s[1..]))
  }

  predicate Sorted<T>(s: seq<Pair<T>>) {
    forall i, j :: 0 <= i < j < |s| ==> !Before(s[j].key, s[i].key)
  }

  /** The values under one key, in order. */
  function ValuesOf<T>(s: seq<Pair<T>>, key: string): seq<T> {
    if s == [] then []
    else if s[0].key == key then [s[0].value] + ValuesOf(s[1..], key)
    else ValuesOf(s[1..], key)
  }

  /** The same values in the same order under every key. */
  ghost predicate SameValues<T>(s: seq<Pair<T>>, t: seq<Pair<T>>) {
    forall key :: ValuesOf(s, key) == ValuesOf(t, key)
  }

  lemma {:induction false} ValuesPresent<T>(s: seq<Pair<T>>, key: string)
    ensures ValuesOf(s, key) != [] <==> exists i :: 0 <= i < |s| && s[i].key == key
  {
    if s != [] {
      ValuesPresent(s[1..], key);
      if s[0].key != key && ValuesOf(s, key) != [] {
        var i :| 0 <= i < |s[1..]| && s[1..][i].key == key;
        assert s[i + 1].key == key;
      }
      if i :| 0 <= i < |s| && s[i].key == key && s[0].key != key {
        assert s[1..][i - 1].key == key;
      }
    }
  }

  lemma {:induction false} InsertElements<T>(p: Pair<T>, s: seq<Pair<T>>)
    ensures multiset(Insert(p, s)) == multiset(s) + multiset{p}
  {
    if s != [] && Before(s[0].key, p.key) {
      InsertElements(p, s[1..]);
      assert s == [s[0]] + s[1..];
    }
  }

  lemma {:induction false} InsertValues<T>(p: Pair<T>, s: seq<Pair<T>>, key: string)
    ensures ValuesOf(Insert(p, s), key) == ValuesOf([p] + s, key)
  {
    assert ([p] + s)[1..] == s;
    if s != [] && Before(s[0].key, p.key) {
      InsertValues(p, s[1..], key);
      BeforeIsStrictOrder(s[0].key, p.key);
      assert ([p] + s[1..])[1..] == s[1..];
      assert ([s[0]] + Insert(p, s[1..]))[1..] == Insert(p, s[1..]);
    }
  }

  lemma {:induction false} InsertSorted<T>(p: Pair<T>, s: seq<Pair<T>>)
    requires Sorted(s)
    ensures Sorted(Insert(p, s))
  {
    if s == [] {
    } else if !Before(s[0].key, p.key) {
      forall i | 0 <= i < |s|
        ensures !Before(s[i].key, p.key)
      {
        BeforeIsStrictOrder(s[0].key, s[i].key);
        if Before(s[i].key, p.key) && Before(s[0].key, s[i].key) {
          BeforeIsTransitive(s[0].key, s[i].key, p.key);
        }
      }
    } else {
      var t := Insert(p, s[1..]);
      InsertSorted(p, s[1..]);
      InsertElements(p, s[1..]);
      BeforeIsStrictOrder(s[0].key, p.key);
      forall j | 0 <= j < |t|
        ensures !Before(t[j].key, s[0].key)
      {
        assert t[j] in multiset(t);
        assert t[j] == p || t[j] in s[1..];
      }
    }
  }

  lemma {:induction false} SortIsStable<T>(s: seq<Pair<T>>, key: string)
    ensures Sorted(SortByKey(s))
    ensures multiset(SortByKey(s)) == multiset(s)
    ensures ValuesOf(SortByKey(s), key) == ValuesOf(s, key)
  {
    if s != [] {
      SortIsStable(s[1..], key);
      InsertSorted(s[0], SortByKey(s[1..]));
      InsertElements(s[0], SortByKey(s[1..]));
      InsertValues(s[0], SortByKey(s[1..]), key);
      assert s == [s[0]] + s[1..];
      assert ([s[0]] + SortByKey(s[1..]))[1..] == SortByKey(s[1..]);
    }
  }

  lemma LeastFirst<T>(s: seq<Pair<T>>, t: seq<Pair<T>>)
    requires s != [] && Sorted(t)
    requires SameValues(s, t)
    ensures t != [] && !Before(s[0].key, t[0].key)
  {
    ValuesPresent(s, s[0].key);
    ValuesPresent(t, s[0].key);
    var i :| 0 <= i < |t| && t[i].key == s[0].key;
    BeforeIsStrictOrder(t[0].key, t[0].key);
  }

  lemma {:induction false} SortedIsUnique<T>(s: seq<Pair<T>>, t: seq<Pair<T>>)
    requires Sorted(s) && Sorted(t)
    requires SameValues(s, t)
    ensures s == t
  {
    if s == [] {
      if t != [] {
        LeastFirst(t, s);
      }
    } else {
      LeastFirst(s, t);
      LeastFirst(t, s);
      BeforeIsStrictOrder(s[0].key, t[0].key);
      assert s[0] == t[0] by {
        assert s[0].value == ValuesOf(s, s[0].key)[0] == ValuesOf(t, s[0].key)[0] == t[0].value;
      }
      forall key
        ensures ValuesOf(s[1..], key) == ValuesOf(t[1..], key)
      {
        assert ValuesOf(s, key) == ValuesOf(t, key);
        assert s[0].key == key ==> ValuesOf(s, key)[1..] == ValuesOf(s[1..], key);
        assert t[0].key == key ==> ValuesOf(t, key)[1..] == ValuesOf(t[1..], key);
      }
      SortedIsUnique(s[1..], t[1..]);
      assert s == [s[0]] + s[1..] && t == [t[0]] + t[1..];
    }
  }

  /** Sorting tells two lists of pairs apart exactly when some key has other values, or the
      same values in another order. */
  lemma SortedAlike<T>(s: seq<Pair<T>>, t: seq<Pair<T>>)
    ensures SortByKey(s) == SortByKey(t) <==> SameValues(s, t)
  {
    if SortByKey(s) == SortByKey(t) {
      forall key
        ensures ValuesOf(s, key) == ValuesOf(t, key)
      {
        SortIsStable(s, key);
        SortIsStable(t, key);
      }
    } else if SameValues(s, t) {
      forall key
        ensures ValuesOf(SortByKey(s), key) == ValuesOf(SortByKey(t), key)
      {
        SortIsStable(s, key);
        SortIsStable(t, key);
      }
      SortIsStable(s, "");
      SortIsStable(t, "");
      SortedIsUnique(SortByKey(s), SortByKey(t));
    }
  }

  /** With the same distinct keys in the same places, sorting hides no difference. */
  lemma SortTellsApart<T>(s: seq<Pair<T>>, t: seq<Pair<T>>)
    requires |s| == |t| && (forall i :: 0 <= i < |s| ==> s[i].key == t[i].key)
    requires forall i, j :: 0 <= i < j < |s| ==> s[i].key != s[j].key
    ensures SortByKey(s) == SortByKey(t) <==> s == t
  {
    SortIsStable(s, "");
    SortIsStable(t, "");
    if SortByKey(s) == SortByKey(t) {
      forall i | 0 <= i < |s|
        ensures s[i] == t[i]
      {
        assert s[i] in multiset(t);
        var j :| 0 <= j < |t| && t[j] == s[i];
        assert i == j;
      }
    }
  }
}
