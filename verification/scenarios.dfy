/** Concrete positions of play, worked through the model. */
module Scenarios {
  import opened LineGrid
  import opened Engine

  /** X fills the top row and O the bottom row of one grid: rows are tried
      top to bottom, so X is reported with the endpoints (0,0)-(2,0). */
  lemma TopRowBeatsBottomRow()
    ensures Winner(Grid(Triple(X, X, X), Triple(Clear, Clear, Clear), Triple(O, O, O)))
      == Win(X, Line(Pos(0, 0), Pos(2, 0)))
  {
  }

  /** A column is tried before either diagonal: with X on the left column
      and on the leading diagonal, the column is reported. */
  lemma ColumnBeatsDiagonal()
    ensures Winner(Grid(Triple(X, O, O), Triple(X, X, O), Triple(X, O, X)))
      == Win(X, Line(Pos(0, 0), Pos(0, 2)))
  {
  }

  /** The opening move: X plays the top-left cell of the centre board, O
      moves next and is sent to the top-left board. */
  lemma OpeningMove()
    ensures ApplyMove(Initial, Move(Pos(1, 1), Pos(0, 0))).current == O
    ensures ApplyMove(Initial, Move(Pos(1, 1), Pos(0, 0))).active == Some(Pos(0, 0))
    ensures ApplyMove(Initial, Move(Pos(1, 1), Pos(0, 0))).winner == Clear
  {
  }

  /** After the opening move, a move outside the board O was sent to is
      ignored, even into an empty cell. */
  lemma ForcedBoardOnly()
    ensures var g := ApplyMove(Initial, Move(Pos(1, 1), Pos(0, 0)));
      ApplyMove(g, Move(Pos(2, 2), Pos(1, 1))) == g
    ensures var g := ApplyMove(Initial, Move(Pos(1, 1), Pos(0, 0)));
      ApplyMove(g, Move(Pos(1, 1), Pos(2, 2))) == g
  {
  }

  /** X opens in the centre cell of the centre board, so O is sent back to
      the centre board: the taken centre cell is refused there, and any empty
      cell of it is taken. */
  lemma TakenCellIgnored()
    ensures var g := ApplyMove(Initial, Move(Pos(1, 1), Pos(1, 1)));
      g.active == Some(Pos(1, 1)) && ApplyMove(g, Move(Pos(1, 1), Pos(1, 1))) == g
    ensures var g := ApplyMove(Initial, Move(Pos(1, 1), Pos(1, 1)));
      ApplyMove(g, Move(Pos(1, 1), Pos(0, 2))).current == X
  {
  }

  /** A state whose only marks lie in the top row of the three top boards,
      given left to right, with nobody having won anything. */
  function TopRowsOnly(left: Triple, centre: Triple, right: Triple, current: Cell, active: Option<Pos>): Game {
    var row := BoardRow(
      Board(Grid(left, EmptyRow, EmptyRow), NoWin),
      Board(Grid(centre, EmptyRow, EmptyRow), NoWin),
      Board(Grid(right, EmptyRow, EmptyRow), NoWin));
    Game(Boards(row, EmptyBoardRow, EmptyBoardRow), EmptyBoard, current, active, Clear)
  }

  /** X holds the two left cells of the top row of the top-right board and
      is to move there; O holds the top-right cell of the top-left and
      top-centre boards. */
  function NearWin(): Game {
    TopRowsOnly(Triple(Clear, Clear, O), Triple(Clear, Clear, O), Triple(X, X, Clear), X, Some(Pos(2, 0)))
  }

  /** `NearWin` is reached from the start: X opens in the top-left cell of
      the top-right board, O answers in the top-right cell of the top-left
      board and so sends X back, X takes the top-middle cell, and O answers
      in the top-right cell of the top-centre board. */
  lemma NearWinReachable()
    ensures Play(Initial, [
      Move(Pos(2, 0), Pos(0, 0)),
      Move(Pos(0, 0), Pos(2, 0)),
      Move(Pos(2, 0), Pos(1, 0)),
      Move(Pos(1, 0), Pos(2, 0))]) == NearWin()
  {
    var m1, m2, m3, m4 := Move(Pos(2, 0), Pos(0, 0)), Move(Pos(0, 0), Pos(2, 0)),
      Move(Pos(2, 0), Pos(1, 0)), Move(Pos(1, 0), Pos(2, 0));
    var s1 := TopRowsOnly(EmptyRow, EmptyRow, Triple(X, Clear, Clear), O, Some(Pos(0, 0)));
    var s2 := TopRowsOnly(Triple(Clear, Clear, O), EmptyRow, Triple(X, Clear, Clear), X, Some(Pos(2, 0)));
    var s3 := TopRowsOnly(Triple(Clear, Clear, O), EmptyRow, Triple(X, X, Clear), O, Some(Pos(1, 0)));
    assert ApplyMove(Initial, m1) == s1;
    assert ApplyMove(s1, m2) == s2;
    assert ApplyMove(s2, m3) == s3;
    assert ApplyMove(s3, m4) == NearWin();
    assert [m1, m2, m3, m4] == [m1] + [m2, m3, m4];
    assert [m2, m3, m4] == [m2] + [m3, m4];
    assert [m3, m4] == [m3] + [m4];
    assert [m4] == [m4] + [];
    PlayCons(Initial, m1, [m2, m3, m4]);
    PlayCons(s1, m2, [m3, m4]);
    PlayCons(s2, m3, [m4]);
    PlayCons(s3, m4, []);
  }

  /** X completes the top row of the top-right board by playing its
      top-right cell: the board is won by X, the meta-board records X at the
      same position, and since the cell just played names that very board,
      O may play on any board. */
  lemma WinningMoveFreesOpponent()
    ensures var r := ApplyMove(NearWin(), Move(Pos(2, 0), Pos(2, 0)));
      Won(BoardAt(r.boards, Pos(2, 0))) == X
      && At(r.meta.cells, Pos(2, 0)) == X
      && r.active == None && r.current == O && r.winner == Clear
  {
  }

  /** X plays the centre cell of that board instead: no line is complete,
      the meta-board stays empty and O is sent to the centre board. */
  lemma NonWinningMoveRedirects()
    ensures var r := ApplyMove(NearWin(), Move(Pos(2, 0), Pos(1, 1)));
      Won(BoardAt(r.boards, Pos(2, 0))) == Clear
      && r.active == Some(Pos(1, 1)) && r.meta == EmptyBoard
  {
  }
}
