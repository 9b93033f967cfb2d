/** The move-application state machine of Super Tic-Tac-Toe.

    Nine sub-boards sit in a 3x3 square; the meta-board records, cell by
    cell, which mark has won the sub-board at the same position. A move names
    a sub-board and a cell of it, in place of the mouse click the game reads.
 */
module Engine {
  import opened LineGrid

  /** A sub-board or the meta-board: its cells and the last non-empty result
      of the win detector on them, `NoWin` until there is one. */
  datatype Board = Board(cells: Grid, won: Win)

  const EmptyBoard: Board := Board(EmptyGrid, NoWin)

  /** The three sub-boards of one row of the game, left to right. */
  datatype BoardRow = BoardRow(left: Board, centre: Board, right: Board)

  /** The nine sub-boards of the game as three rows, top to bottom. */
  datatype Boards = Boards(top: BoardRow, middle: BoardRow, bottom: BoardRow)

  const EmptyBoardRow: BoardRow := BoardRow(EmptyBoard, EmptyBoard, EmptyBoard)
  const EmptyBoards: Boards := Boards(EmptyBoardRow, EmptyBoardRow, EmptyBoardRow)

  function BoardRowOf(bs: Boards, y: Index): BoardRow {
    if y == 0 then bs.top else if y == 1 then bs.middle else bs.bottom
  }

  function PickBoard(t: BoardRow, x: Index): Board {
    if x == 0 then t.left else if x == 1 then t.centre else t.right
  }

  /** The sub-board in column `p.x` of row `p.y`. */
  function BoardAt(bs: Boards, p: Pos): Board {
    PickBoard(BoardRowOf(bs, p.y), p.x)
  }

  function ReplaceBoard(t: BoardRow, x: Index, b: Board): BoardRow {
    if x == 0 then t.(left := b) else if x == 1 then t.(centre := b) else t.(right := b)
  }

  /** The boards with the one at `p` replaced by `b`. */
  function PutBoard(bs: Boards, p: Pos, b: Board): (r: Boards)
    ensures BoardAt(r, p) == b
    ensures forall q: Pos :: q != p ==> BoardAt(r, q) == BoardAt(bs, q)
  {
    var t := ReplaceBoard(BoardRowOf(bs, p.y), p.x, b);
    if p.y == 0 then bs.(top := t) else if p.y == 1 then bs.(middle := t) else bs.(bottom := t)
  }

  /** The mark that has won the board, `Clear` while it is unresolved. */
  function Won(b: Board): Cell {
    Mark(b.won)
  }

  /** A click: the sub-board it lands in and the cell within that board. */
  datatype Move = Move(board: Pos, cell: Pos)

  /** The whole game state: the sub-boards, the meta-board, the mark of the
      player to move, the board the next move is confined to (`None` for any
      board) and the winner of the game (`Clear` while play goes on). */
  datatype Game = Game(
    boards: Boards,
    meta: Board,
    current: Cell,
    active: Option<Pos>,
    winner: Cell)

  /** The state the game starts in: every board empty, X to move, any board
      open, nobody has won. */
  const Initial: Game := Game(EmptyBoards, EmptyBoard, X, None, Clear)

  /** The mark of the other player. Any mark other than X is followed by X. */
  function Toggle(c: Cell): (r: Cell)
    ensures r != Clear && r != c
  {
    if c == X then O else X
  }

  /** Whether the sub-board at `at` takes the next move: the active board
      when one is set, otherwise any board nobody has won. */
  predicate BoardOpen(g: Game, at: Pos) {
    match g.active
    case None => Won(BoardAt(g.boards, at)) == Clear
    case Some(b) => b == at
  }

  /** Whether the game takes move `m`: nobody has won the game, the board is
      open and the cell is empty. */
  predicate Accepts(g: Game, m: Move) {
    g.winner == Clear
    && BoardOpen(g, m.board)
    && At(BoardAt(g.boards, m.board).cells, m.cell) == Clear
  }

  /** Writes `mark` into cell `p` of board `b` and runs the win detector:
      a result that names a winner replaces the recorded one, an empty result
      leaves it as it was. Sub-boards and the meta-board are updated alike. */
  function Record(b: Board, p: Pos, mark: Cell): (r: Board)
    ensures At(r.cells, p) == mark
    ensures forall q: Pos :: q != p ==> At(r.cells, q) == At(b.cells, q)
    ensures Winner(r.cells).Win? ==> r.won == Winner(r.cells)
    ensures Winner(r.cells).NoWin? ==> r.won == b.won
  {
    var cells := Put(b.cells, p, mark);
    var result := Winner(cells);
    Board(cells, if result.Win? then result else b.won)
  }

  /** Copies the mark that won the sub-board at `at` into the meta-board and
      runs the detector on it; a line found there decides the game. */
  function Promote(g: Game, at: Pos, mark: Cell): (r: Game)
    ensures r.boards == g.boards && r.current == g.current && r.active == g.active
    ensures At(r.meta.cells, at) == mark
    ensures forall q: Pos :: q != at ==> At(r.meta.cells, q) == At(g.meta.cells, q)
    ensures Winner(r.meta.cells).Win? ==>
      r.winner == Winner(r.meta.cells).mark && r.meta.won == Winner(r.meta.cells)
    ensures Winner(r.meta.cells).NoWin? ==> r.winner == g.winner && r.meta.won == g.meta.won
  {
    var meta := Record(g.meta, at, mark);
    var result := Winner(meta.cells);
    g.(meta := meta, winner := if result.Win? then result.mark else g.winner)
  }

  /** The board the opponent is sent to after a move into cell `cell`: the
      sub-board at the same position, or any board when that one is won. */
  function Redirect(boards: Boards, cell: Pos): (r: Option<Pos>)
    ensures r.Some? ==> r.value == cell && Won(BoardAt(boards, cell)) == Clear
    ensures r.None? ==> Won(BoardAt(boards, cell)) != Clear
  {
    if Won(BoardAt(boards, cell)) != Clear then None else Some(cell)
  }

  /** One update of the game: the move is ignored unless the game accepts
      it; otherwise the mark is placed, the turn passes, a board won by the
      move is promoted to the meta-board and the opponent is redirected. */
  function ApplyMove(g: Game, m: Move): (r: Game)
    ensures !Accepts(g, m) ==> r == g
    ensures g.winner != Clear ==> r == g
    ensures Accepts(g, m) ==> r.current == Toggle(g.current)
    ensures Accepts(g, m) ==> At(BoardAt(r.boards, m.board).cells, m.cell) == g.current
    ensures Accepts(g, m) ==> r.active == Redirect(r.boards, m.cell)
  {
    if !Accepts(g, m) then g
    else
      var played := Record(BoardAt(g.boards, m.board), m.cell, g.current);
      var boards := PutBoard(g.boards, m.board, played);
      var placed := g.(boards := boards, current := Toggle(g.current));
      var promoted := if Won(played) != Clear then Promote(placed, m.board, Won(played)) else placed;
      promoted.(active := Redirect(boards, m.cell))
  }

  /** The state after playing `moves` in order from `g`. Once the game is
      won no sequence of moves changes it. */
  function Play(g: Game, moves: seq<Move>): (r: Game)
    ensures g.winner != Clear ==> r == g
    decreases |moves|
  {
    if moves == [] then g else Play(ApplyMove(g, moves[0]), moves[1..])
  }

  /** Playing a move and then a sequence is playing the longer sequence. */
  lemma PlayCons(g: Game, m: Move, moves: seq<Move>)
    ensures Play(g, [m] + moves) == Play(ApplyMove(g, m), moves)
  {
    assert ([m] + moves)[1..] == moves;
  }

  /** Playing two sequences one after the other is playing their
      concatenation. */
  lemma {:induction false} PlayAppend(g: Game, a: seq<Move>, b: seq<Move>)
    ensures Play(g, a + b) == Play(Play(g, a), b)
    decreases |a|
  {
    if a == [] {
      assert a + b == b;
    } else {
      assert a + b == [a[0]] + (a[1..] + b);
      PlayCons(g, a[0], a[1..] + b);
      PlayAppend(ApplyMove(g, a[0]), a[1..], b);
    }
  }
}
