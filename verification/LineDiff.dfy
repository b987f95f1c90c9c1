/** Side-by-side rows of two texts (internal/workspace/diff.go:238-277). The opcodes come
    from a matcher that is not part of this model. */
module LineDiff {
  import opened Prelude

  datatype Op = Equal | Changed | Removed | Added

  /** Lines are numbered from 1; 0 stands for no line on that side. */
  datatype Row = Row(op: Op, leftLine: nat, leftText: string, rightLine: nat, rightText: string)

  datatype Tag = TagEqual | TagDelete | TagInsert | TagReplace

  datatype OpCode = OpCode(tag: Tag, i1: nat, i2: nat, j1: nat, j2: nat)

  datatype Line = Line(number: nat, text: string)

  /** The lines of a from index i on, numbered. */
  function Numbered(a: seq<string>, i: nat, j: nat): (r: seq<Line>)
    requires i <= j <= |a|
    ensures |r| == j - i && forall k :: 0 <= k < j - i ==> r[k] == Line(i + k + 1, a[i + k])
  {
    seq(j - i, k requires 0 <= k < j - i => Line(i + k + 1, a[i + k]))
  }

  /** Blocks without gaps or overlap, equal ones equal line by line. */
  predicate Tiles(ops: seq<OpCode>, a: seq<string>, b: seq<string>, i: nat, j: nat) {
    if ops == [] then i == |a| && j == |b|
    else
      var op := ops[0];
      && op.i1 == i && op.j1 == j && op.i1 <= op.i2 <= |a| && op.j1 <= op.j2 <= |b|
      && (op.tag.TagEqual? ==> a[op.i1..op.i2] == b[op.j1..op.j2])
      && Tiles(ops[1..], a, b, op.i2, op.j2)
  }

  function Left(rows: seq<Row>): seq<Line> {
    if rows == [] then []
    else (if rows[0].leftLine > 0 then [Line(rows[0].leftLine, rows[0].leftText)] else []) + Left(rows[1..])
  }

  function Right(rows: seq<Row>): seq<Line> {
    if rows == [] then []
    else (if rows[0].rightLine > 0 then [Line(rows[0].rightLine, rows[0].rightText)] else []) + Right(rows[1..])
  }

  function Count(rows: seq<Row>, ops: set<Op>): nat {
    if rows == [] then 0 else (if rows[0].op in ops then 1 else 0) + Count(rows[1..], ops)
  }

  /** A row has the sides its kind says, and an equal row the same text on both. */
  predicate Sound(r: Row) {
    match r.op
    case Equal => r.leftLine > 0 && r.rightLine > 0 && r.leftText == r.rightText
    case Changed => r.leftLine > 0 && r.rightLine > 0
    case Removed => r.leftLine > 0 && r.rightLine == 0
    case Added => r.leftLine == 0 && r.rightLine > 0
  }

  lemma {:induction false} LeftAppend(rows: seq<Row>, r: Row)
    ensures Left(rows + [r]) == Left(rows) + if r.leftLine > 0 then [Line(r.leftLine, r.leftText)] else []
  {
    if rows == [] {
      assert rows + [r] == [r];
      assert Left([r][1..]) == [];
    } else {
      LeftAppend(rows[1..], r);
      assert (rows + [r])[1..] == rows[1..] + [r];
    }
  }

  lemma {:induction false} RightAppend(rows: seq<Row>, r: Row)
    ensures Right(rows + [r]) == Right(rows) + if r.rightLine > 0 then [Line(r.rightLine, r.rightText)] else []
  {
    if rows == [] {
      assert rows + [r] == [r];
      assert Right([r][1..]) == [];
    } else {
      RightAppend(rows[1..], r);
      assert (rows + [r])[1..] == rows[1..] + [r];
    }
  }

  /** No line is lost, invented or moved. */
  method DiffLines(a: seq<string>, b: seq<string>, ops: seq<OpCode>) returns (rows: seq<Row>)
    requires Tiles(ops, a, b, 0, 0)
    ensures Left(rows) == Numbered(a, 0, |a|)
    ensures Right(rows) == Numbered(b, 0, |b|)
    ensures forall r <- rows :: Sound(r)
  {
    rows := [];
    ghost var i: nat, j: nat := 0, 0;
    for n := 0 to |ops|
      invariant i <= |a| && j <= |b| && Tiles(ops[n..], a, b, i, j)
      invariant Left(rows) == Numbered(a, 0, i)
      invariant Right(rows) == Numbered(b, 0, j)
      invariant forall r <- rows :: Sound(r)
    {
      var op := ops[n];
      assert ops[n..][0] == op && ops[n..][1..] == ops[n + 1..];
      if op.tag.TagEqual? {
        rows := EqualRows(rows, a, b, op);
      } else {
        rows := DifferingRows(rows, a, b, op);
      }
      assert Numbered(a, 0, op.i1) + Numbered(a, op.i1, op.i2) == Numbered(a, 0, op.i2);
      assert Numbered(b, 0, op.j1) + Numbered(b, op.j1, op.j2) == Numbered(b, 0, op.j2);
      i, j := op.i2, op.j2;
    }
  }

  method EqualRows(before: seq<Row>, a: seq<string>, b: seq<string>, op: OpCode) returns (rows: seq<Row>)
    requires op.i1 <= op.i2 <= |a| && op.j1 <= op.j2 <= |b| && a[op.i1..op.i2] == b[op.j1..op.j2]
    requires forall r <- before :: Sound(r)
    ensures Left(rows) == Left(before) + Numbered(a, op.i1, op.i2)
    ensures Right(rows) == Right(before) + Numbered(b, op.j1, op.j2)
    ensures forall r <- rows :: Sound(r)
  {
    rows := before;
    assert |a[op.i1..op.i2]| == |b[op.j1..op.j2]|;
    for k := 0 to op.i2 - op.i1
      invariant Left(rows) == Left(before) + Numbered(a, op.i1, op.i1 + k)
      invariant op.j1 + k <= op.j2 && Right(rows) == Right(before) + Numbered(b, op.j1, op.j1 + k)
      invariant forall r <- rows :: Sound(r)
    {
      var row := Row(Equal, op.i1 + k + 1, a[op.i1 + k], op.j1 + k + 1, b[op.j1 + k]);
      assert a[op.i1 + k] == a[op.i1..op.i2][k] == b[op.j1..op.j2][k] == b[op.j1 + k];
      LeftAppend(rows, row);
      RightAppend(rows, row);
      assert Numbered(a, op.i1, op.i1 + k + 1) == Numbered(a, op.i1, op.i1 + k) + [Line(row.leftLine, row.leftText)];
      assert Numbered(b, op.j1, op.j1 + k + 1) == Numbered(b, op.j1, op.j1 + k) + [Line(row.rightLine, row.rightText)];
      rows := rows + [row];
    }
  }

  function Min(x: nat, y: nat): nat {
    if x < y then x else y
  }

  /** The part of a side that its k-th row holds. */
  function Part(side: seq<string>, from: nat, to: nat, k: nat): seq<Line>
    requires from <= to <= |side|
  {
    if k < to - from then [Line(from + k + 1, side[from + k])] else []
  }

  lemma NumberedNext(side: seq<string>, from: nat, to: nat, k: nat)
    requires from <= to <= |side|
    ensures Numbered(side, from, from + Min(k + 1, to - from)) == Numbered(side, from, from + Min(k, to - from)) + Part(side, from, to, k)
  {
  }

  lemma LeftStep(before: seq<Row>, rows: seq<Row>, row: Row, side: seq<string>, from: nat, to: nat, k: nat)
    requires from <= to <= |side| && Left([row]) == Part(side, from, to, k)
    requires Left(rows) == Left(before) + Numbered(side, from, from + Min(k, to - from))
    ensures Left(rows + [row]) == Left(before) + Numbered(side, from, from + Min(k + 1, to - from))
  {
    LeftAppend(rows, row);
    NumberedNext(side, from, to, k);
  }

  lemma RightStep(before: seq<Row>, rows: seq<Row>, row: Row, side: seq<string>, from: nat, to: nat, k: nat)
    requires from <= to <= |side| && Right([row]) == Part(side, from, to, k)
    requires Right(rows) == Right(before) + Numbered(side, from, from + Min(k, to - from))
    ensures Right(rows + [row]) == Right(before) + Numbered(side, from, from + Min(k + 1, to - from))
  {
    RightAppend(rows, row);
    NumberedNext(side, from, to, k);
  }

  method DifferingRow(a: seq<string>, b: seq<string>, op: OpCode, k: nat) returns (row: Row)
    requires op.i1 <= op.i2 <= |a| && op.j1 <= op.j2 <= |b|
    requires k < op.i2 - op.i1 || k < op.j2 - op.j1
    ensures Sound(row)
    ensures Left([row]) == Part(a, op.i1, op.i2, k) && Right([row]) == Part(b, op.j1, op.j2, k)
  {
    var nl, nr := op.i2 - op.i1, op.j2 - op.j1;
    row := Row(Added, 0, "", 0, "");
    if k < nl {
      row := row.(leftLine := op.i1 + k + 1, leftText := a[op.i1 + k]);
    }
    if k < nr {
      row := row.(rightLine := op.j1 + k + 1, rightText := b[op.j1 + k]);
    }
    if k < nl && k < nr {
      row := row.(op := Changed);
    } else if k < nl {
      row := row.(op := Removed);
    } else {
      row := row.(op := Added);
    }
  }

  method DifferingRows(before: seq<Row>, a: seq<string>, b: seq<string>, op: OpCode) returns (rows: seq<Row>)
    requires op.i1 <= op.i2 <= |a| && op.j1 <= op.j2 <= |b|
    requires forall r <- before :: Sound(r)
    ensures Left(rows) == Left(before) + Numbered(a, op.i1, op.i2)
    ensures Right(rows) == Right(before) + Numbered(b, op.j1, op.j2)
    ensures forall r <- rows :: Sound(r)
  {
    rows := before;
    var nl, nr := op.i2 - op.i1, op.j2 - op.j1;
    for k := 0 to if nl < nr then nr else nl
      invariant Left(rows) == Left(before) + Numbered(a, op.i1, op.i1 + Min(k, nl))
      invariant Right(rows) == Right(before) + Numbered(b, op.j1, op.j1 + Min(k, nr))
      invariant forall r <- rows :: Sound(r)
    {
      var row := DifferingRow(a, b, op, k);
      LeftStep(before, rows, row, a, op.i1, op.i2, k);
      RightStep(before, rows, row, b, op.j1, op.j2, k);
      rows := rows + [row];
    }
  }

  /** Equal, changed and removed rows together count the left lines, equal, changed and added
      ones the right lines. */
  lemma {:induction false} RowsCountLines(rows: seq<Row>)
    requires forall r <- rows :: Sound(r)
    ensures Count(rows, {Equal, Changed, Removed}) == |Left(rows)|
    ensures Count(rows, {Equal, Changed, Added}) == |Right(rows)|
  {
    if rows != [] {
      assert Sound(rows[0]);
      RowsCountLines(rows[1..]);
    }
  }
}
