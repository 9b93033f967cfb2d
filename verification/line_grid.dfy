/** The 3x3 line grid and its win detector.

    A grid holds three rows of three cells, matching the `array[y][x]`
    indexing of the game: positions and line endpoints are written `(x, y)`
    with `x` the column and `y` the row. The same detector serves the nine
    sub-boards and the meta-board.
 */
module LineGrid {

  datatype Option<T> = None | Some(value: T)

  /** The three values a cell can hold: empty, or one of the two marks. */
  datatype Cell = Clear | X | O

  /** A row or column index of a 3x3 grid. */
  type Index = i: int | 0 <= i < 3

  /** A cell position: `x` is the column, `y` the row. */
  datatype Pos = Pos(x: Index, y: Index)

  /** The three cells of one row, left to right. */
  datatype Triple = Triple(left: Cell, centre: Cell, right: Cell)

  /** The nine cells of a board as three rows, top to bottom. */
  datatype Grid = Grid(top: Triple, middle: Triple, bottom: Triple)

  const EmptyRow: Triple := Triple(Clear, Clear, Clear)
  const EmptyGrid: Grid := Grid(EmptyRow, EmptyRow, EmptyRow)

  function RowOf(g: Grid, y: Index): Triple {
    if y == 0 then g.top else if y == 1 then g.middle else g.bottom
  }

  function Pick(t: Triple, x: Index): Cell {
    if x == 0 then t.left else if x == 1 then t.centre else t.right
  }

  /** The cell in column `p.x` of row `p.y`. */
  function At(g: Grid, p: Pos): Cell {
    Pick(RowOf(g, p.y), p.x)
  }

  function Replace(t: Triple, x: Index, c: Cell): Triple {
    if x == 0 then t.(left := c) else if x == 1 then t.(centre := c) else t.(right := c)
  }

  /** The grid with the cell at `p` replaced by `c`. */
  function Put(g: Grid, p: Pos, c: Cell): (h: Grid)
    ensures At(h, p) == c
    ensures forall q: Pos :: q != p ==> At(h, q) == At(g, q)
  {
    var t := Replace(RowOf(g, p.y), p.x, c);
    if p.y == 0 then g.(top := t) else if p.y == 1 then g.(middle := t) else g.(bottom := t)
  }

  /** Every cell of the grid is empty. */
  ghost predicate AllClear(g: Grid) {
    forall p: Pos :: At(g, p) == Clear
  }

  /** How many entries of a row hold `c`. */
  function CountRow(t: Triple, c: Cell): nat {
    (if t.left == c then 1 else 0) + (if t.centre == c then 1 else 0) + (if t.right == c then 1 else 0)
  }

  /** How many cells of the grid hold `c`. */
  function Count(g: Grid, c: Cell): nat {
    CountRow(g.top, c) + CountRow(g.middle, c) + CountRow(g.bottom, c)
  }

  /** Writing `m` into an empty cell adds one `m` and removes one empty cell;
      the count of every other value stays the same. */
  lemma CountPut(g: Grid, p: Pos, m: Cell, c: Cell)
    requires At(g, p) == Clear && m != Clear
    ensures Count(Put(g, p, m), c) ==
      Count(g, c) + (if c == m then 1 else 0) - (if c == Clear then 1 else 0)
  {
    CountReplace(RowOf(g, p.y), p.x, m, c);
  }

  /** The row-level step of `CountPut`. */
  lemma CountReplace(t: Triple, x: Index, m: Cell, c: Cell)
    requires Pick(t, x) == Clear && m != Clear
    ensures CountRow(Replace(t, x, m), c) ==
      CountRow(t, c) + (if c == m then 1 else 0) - (if c == Clear then 1 else 0)
  {
  }

  /** A winning line, given by the positions of its two end cells. */
  datatype Line = Line(start: Pos, end: Pos)

  /** The eight lines of a 3x3 grid. */
  datatype LineId = Row(y: Index) | Column(x: Index) | Leading | Anti

  /** The endpoints the detector reports for each line: a row runs from
      column 0 to column 2, a column from row 0 to row 2, the leading
      diagonal from the top-left corner to the bottom-right one and the
      anti-diagonal from the top-right corner to the bottom-left one. */
  function Ends(id: LineId): Line {
    match id
    case Row(y) => Line(Pos(0, y), Pos(2, y))
    case Column(x) => Line(Pos(x, 0), Pos(x, 2))
    case Leading => Line(Pos(0, 0), Pos(2, 2))
    case Anti => Line(Pos(2, 0), Pos(0, 2))
  }

  /** The position of a line in the order the detector tries them: rows top
      to bottom, columns left to right, the leading diagonal, the anti-diagonal. */
  function Rank(id: LineId): nat {
    match id
    case Row(y) => y
    case Column(x) => 3 + x
    case Leading => 6
    case Anti => 7
  }

  /** The middle cell of each line. */
  function Middle(id: LineId): Pos {
    match id
    case Row(y) => Pos(1, y)
    case Column(x) => Pos(x, 1)
    case _ => Pos(1, 1)
  }

  /** Whether position `p` is one of the three cells of line `id`. */
  predicate OnLine(p: Pos, id: LineId) {
    p == Ends(id).start || p == Middle(id) || p == Ends(id).end
  }

  /** A line is uniform when its three cells hold the same non-empty mark. */
  predicate Uniform(g: Grid, id: LineId) {
    var m := At(g, Ends(id).start);
    m != Clear && At(g, Middle(id)) == m && At(g, Ends(id).end) == m
  }

  /** The outcome of the win detector: no winner, or the winning mark with
      the endpoints of its line. */
  datatype Win = NoWin | Win(mark: Cell, line: Line)

  /** The mark a result reports; `Clear` when nobody won. */
  function Mark(w: Win): Cell {
    match w
    case NoWin => Clear
    case Win(m, _) => m
  }

  /** The result that reports line `id` as won by the mark in its cells. */
  function Report(g: Grid, id: LineId): Win {
    Win(At(g, Ends(id).start), Ends(id))
  }

  /** The first uniform line of `g` in detection order, if there is one. */
  function FirstLine(g: Grid): Option<LineId> {
    if Uniform(g, Row(0)) then Some(Row(0))
    else if Uniform(g, Row(1)) then Some(Row(1))
    else if Uniform(g, Row(2)) then Some(Row(2))
    else if Uniform(g, Column(0)) then Some(Column(0))
    else if Uniform(g, Column(1)) then Some(Column(1))
    else if Uniform(g, Column(2)) then Some(Column(2))
    else if Uniform(g, Leading) then Some(Leading)
    else if Uniform(g, Anti) then Some(Anti)
    else None
  }

  /** The result of the win detector on `g`: the first uniform line in
      detection order, reported with its mark. */
  function Winner(g: Grid): Win {
    match FirstLine(g)
    case None => NoWin
    case Some(id) => Report(g, id)
  }

  /** None of the first `n` rows is uniform. */
  predicate NoRowBefore(g: Grid, n: int) {
    (n > 0 ==> !Uniform(g, Row(0)))
    && (n > 1 ==> !Uniform(g, Row(1)))
    && (n > 2 ==> !Uniform(g, Row(2)))
  }

  /** None of the first `n` columns is uniform. */
  predicate NoColumnBefore(g: Grid, n: int) {
    (n > 0 ==> !Uniform(g, Column(0)))
    && (n > 1 ==> !Uniform(g, Column(1)))
    && (n > 2 ==> !Uniform(g, Column(2)))
  }

  /** No line tried before line `id` is uniform. */
  predicate NoneBefore(g: Grid, id: LineId) {
    match id
    case Row(y) => NoRowBefore(g, y)
    case Column(x) => NoRowBefore(g, 3) && NoColumnBefore(g, x)
    case Leading => NoRowBefore(g, 3) && NoColumnBefore(g, 3)
    case Anti => NoRowBefore(g, 3) && NoColumnBefore(g, 3) && !Uniform(g, Leading)
  }

  /** Line `id` is uniform and precedes every other uniform line of `g` in
      detection order. */
  predicate FirstUniform(g: Grid, id: LineId) {
    Uniform(g, id) && NoneBefore(g, id)
  }

  /** The lines tried before `id` are exactly those of smaller rank. */
  lemma NoneBeforeMeansLowerRanks(g: Grid, id: LineId)
    ensures NoneBefore(g, id) <==> forall e: LineId :: Rank(e) < Rank(id) ==> !Uniform(g, e)
  {
    if NoneBefore(g, id) {
      forall e: LineId | Rank(e) < Rank(id) ensures !Uniform(g, e) {
        NoneBeforeCovers(g, id, e);
      }
    }
  }

  lemma NoneBeforeCovers(g: Grid, id: LineId, e: LineId)
    requires NoneBefore(g, id) && Rank(e) < Rank(id)
    ensures !Uniform(g, e)
  {
    match e
    case Row(y) =>
      RowBefore(g, if id.Row? then id.y else 3, y);
    case Column(x) =>
      ColumnBefore(g, if id.Column? then id.x else 3, x);
    case Leading =>
    case Anti =>
      assert false;
  }

  lemma RowBefore(g: Grid, n: int, y: Index)
    requires NoRowBefore(g, n) && y < n
    ensures !Uniform(g, Row(y))
  {
  }

  lemma ColumnBefore(g: Grid, n: int, x: Index)
    requires NoColumnBefore(g, n) && x < n
    ensures !Uniform(g, Column(x))
  {
  }

  /** The detector reports the first uniform line. */
  lemma FirstUniformIsReported(g: Grid, id: LineId)
    requires FirstUniform(g, id)
    ensures Winner(g) == Report(g, id)
  {
  }

  /** Two lines with the same endpoints are the same line. */
  lemma EndsInjective(a: LineId, b: LineId)
    ensures Ends(a) == Ends(b) <==> a == b
  {
  }

  /** The detector reports a line exactly when it is the first uniform one. */
  lemma WinnerIsFirstUniform(g: Grid, id: LineId)
    ensures Winner(g) == Report(g, id) <==> FirstUniform(g, id)
  {
    if FirstUniform(g, id) {
      FirstUniformIsReported(g, id);
    } else if Winner(g) == Report(g, id) {
      var e := WinningLine(g);
      EndsInjective(e, id);
    }
  }

  /** What the detector promises: a reported mark is non-empty and fills the
      reported line, which is one of the eight and the first uniform one in
      detection order; nobody wins exactly when no line is uniform. */
  lemma WinnerSpec(g: Grid)
    ensures Winner(g).Win? ==>
      Winner(g).mark != Clear
      && (exists id :: Ends(id) == Winner(g).line
            && At(g, Ends(id).start) == Winner(g).mark
            && At(g, Middle(id)) == Winner(g).mark
            && At(g, Ends(id).end) == Winner(g).mark
            && FirstUniform(g, id))
    ensures Winner(g) == NoWin <==> forall id: LineId :: !Uniform(g, id)
  {
    if Winner(g).Win? {
      var id := WinningLine(g);
      WinnerIsFirstUniform(g, id);
    }
  }

  /** The line behind a reported win. */
  function WinningLine(g: Grid): (id: LineId)
    requires Winner(g).Win?
    ensures Winner(g) == Report(g, id) && FirstUniform(g, id)
  {
    FirstLine(g).value
  }

  /** Every coordinate the detector reports lies in the grid, and the
      reported endpoints are those of a row, a column or a diagonal. */
  lemma WinnerEndpoints(g: Grid)
    ensures Winner(g).Win? ==>
      var l := Winner(g).line;
      (l.start.x == 0 && l.end.x == 2 && l.start.y == l.end.y)
      || (l.start.y == 0 && l.end.y == 2 && l.start.x == l.end.x)
      || l == Line(Pos(0, 0), Pos(2, 2))
      || l == Line(Pos(2, 0), Pos(0, 2))
  {
  }

  /** An empty grid has no winner. */
  lemma ClearGridHasNoWinner(g: Grid)
    requires AllClear(g)
    ensures Winner(g) == NoWin
  {
  }

  /** Placing mark `m` on a grid nobody has won can only make `m` win:
      a line that becomes uniform must pass through the changed cell. */
  lemma NewWinIsMover(g: Grid, p: Pos, m: Cell)
    requires Winner(g) == NoWin
    ensures Winner(Put(g, p, m)).Win? ==> Winner(Put(g, p, m)).mark == m
  {
    var h := Put(g, p, m);
    if Winner(h).Win? {
      var id := WinningLine(h);
      NewUniformLine(g, p, m, id);
    }
  }

  /** A line that the write at `p` makes uniform passes through `p`, so it
      holds the written mark. */
  lemma NewUniformLine(g: Grid, p: Pos, m: Cell, id: LineId)
    requires Uniform(Put(g, p, m), id) && !Uniform(g, id)
    ensures OnLine(p, id) && At(Put(g, p, m), Ends(id).start) == m
  {
  }

  /** A grid with mark `m` on the three cells of line `id` and nothing else. */
  function LoneLine(id: LineId, m: Cell): (g: Grid)
    ensures forall p: Pos :: At(g, p) == (if OnLine(p, id) then m else Clear)
  {
    Put(Put(Put(EmptyGrid, Ends(id).start, m), Middle(id), m), Ends(id).end, m)
  }

  /** A line whose three cells all lie on line `id` is line `id`. */
  lemma LineDetermined(e: LineId, id: LineId)
    requires OnLine(Ends(e).start, id) && OnLine(Middle(e), id) && OnLine(Ends(e).end, id)
    ensures e == id
  {
  }

  /** The only uniform line of a lone-line grid is that line. */
  lemma LoneLineIsAlone(id: LineId, m: Cell, e: LineId)
    requires Uniform(LoneLine(id, m), e)
    ensures e == id
  {
    var g := LoneLine(id, m);
    assert At(g, Ends(e).start) != Clear && At(g, Middle(e)) != Clear && At(g, Ends(e).end) != Clear;
    LineDetermined(e, id);
  }

  /** A line that is the only uniform one is the first uniform one. */
  lemma OnlyUniformIsFirst(g: Grid, id: LineId)
    requires Uniform(g, id)
    requires forall e: LineId :: Uniform(g, e) ==> e == id
    ensures FirstUniform(g, id)
  {
    forall e: LineId | Rank(e) < Rank(id) ensures !Uniform(g, e) {
      assert Uniform(g, e) ==> e == id;
    }
    NoneBeforeMeansLowerRanks(g, id);
  }

  /** A lone-line grid has its line uniform and no other. */
  lemma LoneLineIsFirst(id: LineId, m: Cell)
    requires m != Clear
    ensures FirstUniform(LoneLine(id, m), id)
  {
    var g := LoneLine(id, m);
    assert At(g, Ends(id).start) == m && At(g, Middle(id)) == m && At(g, Ends(id).end) == m;
    forall e: LineId | Uniform(g, e) ensures e == id {
      LoneLineIsAlone(id, m, e);
    }
    OnlyUniformIsFirst(g, id);
  }

  /** Each of the eight lines, filled with one mark on an otherwise empty
      grid, is reported with that mark and its own endpoints. */
  lemma LoneLineWins(id: LineId, m: Cell)
    requires m != Clear
    ensures Winner(LoneLine(id, m)) == Win(m, Ends(id))
  {
    LoneLineIsFirst(id, m);
    FirstUniformIsReported(LoneLine(id, m), id);
  }

  /** The first phase of the detector: rows, top to bottom. */
  method ScanRows(g: Grid) returns (r: Win)
    ensures r.Win? ==> r == Winner(g)
    ensures r.NoWin? ==> NoRowBefore(g, 3)
  {
    var y := 0;
    while y < 3
      invariant 0 <= y <= 3
      invariant NoRowBefore(g, y)
    {
      var result := At(g, Pos(0, y));
      if result != Clear {
        var found := true;
        var x := 1;
        while x < 3
          invariant 1 <= x <= 3
          invariant found
          invariant forall i: Index :: 1 <= i < x ==> At(g, Pos(i, y)) == result
        {
          if At(g, Pos(x, y)) != result {
            found := false;
            break;
          }
          x := x + 1;
        }
        if found {
          FirstUniformIsReported(g, Row(y));
          return Win(result, Ends(Row(y)));
        }
      }
      y := y + 1;
    }
    return NoWin;
  }

  /** The second phase: columns, left to right, once no row has matched. */
  method ScanColumns(g: Grid) returns (r: Win)
    requires NoRowBefore(g, 3)
    ensures r.Win? ==> r == Winner(g)
    ensures r.NoWin? ==> NoColumnBefore(g, 3)
  {
    var x := 0;
    while x < 3
      invariant 0 <= x <= 3
      invariant NoColumnBefore(g, x)
    {
      var result := At(g, Pos(x, 0));
      if result != Clear {
        var found := true;
        var y := 1;
        while y < 3
          invariant 1 <= y <= 3
          invariant found
          invariant forall i: Index :: 1 <= i < y ==> At(g, Pos(x, i)) == result
        {
          if At(g, Pos(x, y)) != result {
            found := false;
            break;
          }
          y := y + 1;
        }
        if found {
          FirstUniformIsReported(g, Column(x));
          return Win(result, Ends(Column(x)));
        }
      }
      x := x + 1;
    }
    return NoWin;
  }

  /** Cell `i`, counted from the top row, of the leading diagonal when
      `leading` is 1 and of the anti-diagonal otherwise. */
  function DiagonalCell(leading: int, i: Index): Pos {
    if leading == 1 then Pos(i, i) else Pos(2 - i, i)
  }

  /** The last phase, once no row or column has matched: the leading
      diagonal while `leading` is 1, then the anti-diagonal. */
  method ScanDiagonals(g: Grid) returns (r: Win)
    requires NoRowBefore(g, 3) && NoColumnBefore(g, 3)
    ensures r == Winner(g)
  {
    var leading := 1;
    while leading >= 0
      invariant -1 <= leading <= 1
      invariant leading < 1 ==> !Uniform(g, Leading)
      invariant leading < 0 ==> !Uniform(g, Anti)
    {
      var result := if leading == 1 then At(g, Pos(0, 0)) else At(g, Pos(2, 0));
      if result == Clear {
        leading := leading - 1;
        continue;
      }
      var found := true;
      var i := 0;
      while i < 3
        invariant 0 <= i <= 3
        invariant found
        invariant forall j: Index :: j < i ==> At(g, DiagonalCell(leading, j)) == result
      {
        if At(g, DiagonalCell(leading, i)) != result {
          found := false;
          break;
        }
        i := i + 1;
      }
      if found {
        assert At(g, DiagonalCell(leading, 0)) == result;
        assert At(g, DiagonalCell(leading, 1)) == result;
        assert At(g, DiagonalCell(leading, 2)) == result;
        var id := if leading == 1 then Leading else Anti;
        FirstUniformIsReported(g, id);
        return Win(result, Ends(id));
      }
      leading := leading - 1;
    }
    return NoWin;
  }

  /** The win detector, phase by phase as the game runs it: rows, columns,
      then the two diagonals, stopping at the first line whose three cells
      hold the same non-empty mark. */
  method CheckWin(g: Grid) returns (r: Win)
    ensures r == Winner(g)
  {
    r := ScanRows(g);
    if r.Win? {
      return;
    }
    r := ScanColumns(g);
    if r.Win? {
      return;
    }
    r := ScanDiagonals(g);
  }
}
