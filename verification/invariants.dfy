/** The invariants the game keeps from its first state on, and what they
    say about a single move. */
module Invariants {
  import opened LineGrid
  import opened Engine

  /** How many cells of the boards in one row hold `c`. */
  function TallyRow(t: BoardRow, c: Cell): nat {
    Count(t.left.cells, c) + Count(t.centre.cells, c) + Count(t.right.cells, c)
  }

  /** How many cells of all nine sub-boards hold `c`. */
  function Tally(bs: Boards, c: Cell): nat {
    TallyRow(bs.top, c) + TallyRow(bs.middle, c) + TallyRow(bs.bottom, c)
  }

  /** Replacing one sub-board changes the tally by the difference of the two
      boards' counts. */
  lemma TallyPutBoard(bs: Boards, p: Pos, b: Board, c: Cell)
    ensures Tally(PutBoard(bs, p, b), c) ==
      Tally(bs, c) - Count(BoardAt(bs, p).cells, c) + Count(b.cells, c)
  {
    var row := ReplaceBoard(BoardRowOf(bs, p.y), p.x, b);
    TallyReplace(BoardRowOf(bs, p.y), p.x, b, c);
    var t, m, u := TallyRow(bs.top, c), TallyRow(bs.middle, c), TallyRow(bs.bottom, c);
    if p.y == 0 {
      assert Tally(PutBoard(bs, p, b), c) == TallyRow(row, c) + m + u;
    } else if p.y == 1 {
      assert Tally(PutBoard(bs, p, b), c) == t + TallyRow(row, c) + u;
    } else {
      assert Tally(PutBoard(bs, p, b), c) == t + m + TallyRow(row, c);
    }
  }

  /** The row-level step of `TallyPutBoard`. */
  lemma TallyReplace(t: BoardRow, x: Index, b: Board, c: Cell)
    ensures TallyRow(ReplaceBoard(t, x, b), c) ==
      TallyRow(t, c) - Count(PickBoard(t, x).cells, c) + Count(b.cells, c)
  {
    var l, m, r := Count(t.left.cells, c), Count(t.centre.cells, c), Count(t.right.cells, c);
    var n := Count(b.cells, c);
    if x == 0 {
      assert TallyRow(ReplaceBoard(t, x, b), c) == n + m + r;
    } else if x == 1 {
      assert TallyRow(ReplaceBoard(t, x, b), c) == l + n + r;
    } else {
      assert TallyRow(ReplaceBoard(t, x, b), c) == l + m + n;
    }
  }

  /** Every sub-board records exactly what the detector finds on its cells. */
  ghost predicate BoardsAgree(bs: Boards) {
    forall p: Pos :: BoardAt(bs, p).won == Winner(BoardAt(bs, p).cells)
  }

  /** Each meta-board cell holds the mark that won the sub-board at the same
      position, `Clear` while that board is unresolved. */
  ghost predicate MetaMirrors(g: Game) {
    forall p: Pos :: At(g.meta.cells, p) == Won(BoardAt(g.boards, p))
  }

  /** The meta-board records what the detector finds on it, and the game's
      winner is the mark it records. */
  predicate MetaAgrees(g: Game) {
    g.meta.won == Winner(g.meta.cells) && g.winner == Won(g.meta)
  }

  /** The board the next move is confined to, if any, is unresolved. */
  predicate ActiveOpen(g: Game) {
    g.active.Some? ==> Won(BoardAt(g.boards, g.active.value)) == Clear
  }

  /** X moves when both marks have been played equally often, O when X is
      one ahead. */
  predicate Balanced(g: Game) {
    (g.current == X && Tally(g.boards, X) == Tally(g.boards, O))
    || (g.current == O && Tally(g.boards, X) == Tally(g.boards, O) + 1)
  }

  /** The invariant of every reachable state. */
  ghost predicate Valid(g: Game) {
    BoardsAgree(g.boards) && MetaMirrors(g) && MetaAgrees(g) && ActiveOpen(g) && Balanced(g)
  }

  /** A detector result names a mark exactly when it reports a line. */
  lemma WinnerMark(g: Grid)
    ensures Mark(Winner(g)) == Clear <==> Winner(g) == NoWin
  {
    WinnerSpec(g);
  }

  /** The game starts in a valid state. */
  lemma InitialValid()
    ensures Valid(Initial)
  {
    ClearGridHasNoWinner(EmptyGrid);
  }

  /** Under the invariant, a board that takes a move is unresolved and its
      cells have no uniform line. */
  lemma PlayedBoardUnresolved(g: Game, m: Move)
    requires Valid(g) && Accepts(g, m)
    ensures BoardAt(g.boards, m.board).won == NoWin
    ensures Winner(BoardAt(g.boards, m.board).cells) == NoWin
  {
    WinnerMark(BoardAt(g.boards, m.board).cells);
  }

  /** While nobody has won the game the meta-board has no uniform line. */
  lemma MetaUnresolved(g: Game)
    requires MetaAgrees(g) && g.winner == Clear
    ensures g.meta.won == NoWin && Winner(g.meta.cells) == NoWin
  {
    WinnerMark(g.meta.cells);
  }

  /** An accepted move writes one cell of one sub-board and nothing else in
      the sub-boards changes. */
  lemma MoveTouchesOneCell(g: Game, m: Move)
    requires Accepts(g, m)
    ensures forall p: Pos :: p != m.board ==>
      BoardAt(ApplyMove(g, m).boards, p) == BoardAt(g.boards, p)
    ensures forall q: Pos :: q != m.cell ==>
      At(BoardAt(ApplyMove(g, m).boards, m.board).cells, q) == At(BoardAt(g.boards, m.board).cells, q)
    ensures At(BoardAt(ApplyMove(g, m).boards, m.board).cells, m.cell) == g.current
  {
  }

  /** The sub-board an accepted move leaves behind. */
  function Played(g: Game, m: Move): Board {
    Record(BoardAt(g.boards, m.board), m.cell, g.current)
  }

  /** The parts of the state an accepted move produces. */
  lemma AcceptedParts(g: Game, m: Move)
    requires Accepts(g, m)
    ensures ApplyMove(g, m).boards == PutBoard(g.boards, m.board, Played(g, m))
    ensures ApplyMove(g, m).active == Redirect(ApplyMove(g, m).boards, m.cell)
    ensures Won(Played(g, m)) == Clear ==>
      ApplyMove(g, m).meta == g.meta && ApplyMove(g, m).winner == g.winner
    ensures Won(Played(g, m)) != Clear ==>
      ApplyMove(g, m).meta == Record(g.meta, m.board, Won(Played(g, m)))
      && ApplyMove(g, m).winner ==
        (if Winner(ApplyMove(g, m).meta.cells).Win? then Winner(ApplyMove(g, m).meta.cells).mark else g.winner)
  {
  }

  /** A move keeps every sub-board's record in step with its cells. */
  lemma StepBoardsAgree(g: Game, m: Move)
    requires Valid(g) && Accepts(g, m)
    ensures BoardsAgree(ApplyMove(g, m).boards)
  {
    PlayedBoardUnresolved(g, m);
    AcceptedParts(g, m);
    assert Played(g, m).won == Winner(Played(g, m).cells);
  }

  /** A move keeps the meta-board mirroring the sub-boards. */
  lemma StepMetaMirrors(g: Game, m: Move)
    requires Valid(g) && Accepts(g, m)
    ensures MetaMirrors(ApplyMove(g, m))
  {
    var r := ApplyMove(g, m);
    PlayedBoardUnresolved(g, m);
    AcceptedParts(g, m);
    var w := Won(Played(g, m));
    forall p: Pos
      ensures At(r.meta.cells, p) == Won(BoardAt(r.boards, p))
    {
      if p == m.board {
        assert BoardAt(r.boards, p) == Played(g, m);
        if w == Clear {
          assert At(g.meta.cells, p) == Clear;
        }
      } else {
        assert BoardAt(r.boards, p) == BoardAt(g.boards, p);
      }
    }
  }

  /** A move keeps the game's winner in step with the meta-board. */
  lemma StepMetaAgrees(g: Game, m: Move)
    requires Valid(g) && Accepts(g, m)
    ensures MetaAgrees(ApplyMove(g, m))
  {
    var r := ApplyMove(g, m);
    MetaUnresolved(g);
    AcceptedParts(g, m);
    if Won(Played(g, m)) != Clear {
      WinnerMark(r.meta.cells);
    }
  }

  /** A move keeps the marks balanced with the player to move. */
  lemma StepBalanced(g: Game, m: Move)
    requires Valid(g) && Accepts(g, m)
    ensures Balanced(ApplyMove(g, m))
  {
    var b := BoardAt(g.boards, m.board);
    AcceptedParts(g, m);
    TallyPutBoard(g.boards, m.board, Played(g, m), X);
    TallyPutBoard(g.boards, m.board, Played(g, m), O);
    CountPut(b.cells, m.cell, g.current, X);
    CountPut(b.cells, m.cell, g.current, O);
  }

  /** Every move, accepted or not, keeps the invariant. */
  lemma ApplyMovePreservesValid(g: Game, m: Move)
    requires Valid(g)
    ensures Valid(ApplyMove(g, m))
  {
    if Accepts(g, m) {
      StepBoardsAgree(g, m);
      StepMetaMirrors(g, m);
      StepMetaAgrees(g, m);
      StepBalanced(g, m);
      AcceptedParts(g, m);
    }
  }

  /** A move leaves the state unchanged exactly when the game does not
      accept it: an accepted move always passes the turn. */
  lemma UnchangedIffRejected(g: Game, m: Move)
    ensures ApplyMove(g, m) == g <==> !Accepts(g, m)
  {
    if Accepts(g, m) {
      assert ApplyMove(g, m).current == Toggle(g.current) != g.current;
    }
  }

  /** An accepted move never lands on a resolved sub-board. */
  lemma AcceptedBoardUnwon(g: Game, m: Move)
    requires Valid(g) && Accepts(g, m)
    ensures Won(BoardAt(g.boards, m.board)) == Clear
  {
    PlayedBoardUnresolved(g, m);
  }

  /** A resolved sub-board never changes again. */
  lemma WonBoardFrozen(g: Game, m: Move, p: Pos)
    requires Valid(g) && Won(BoardAt(g.boards, p)) != Clear
    ensures BoardAt(ApplyMove(g, m).boards, p) == BoardAt(g.boards, p)
  {
    if Accepts(g, m) {
      AcceptedBoardUnwon(g, m);
      MoveTouchesOneCell(g, m);
    }
  }

  /** A meta-board cell, once it names a winner, is never overwritten. */
  lemma MetaCellKept(g: Game, m: Move, p: Pos)
    requires Valid(g) && At(g.meta.cells, p) != Clear
    ensures At(ApplyMove(g, m).meta.cells, p) == At(g.meta.cells, p)
  {
    WonBoardFrozen(g, m, p);
    ApplyMovePreservesValid(g, m);
  }

  /** A sub-board that a move resolves is won by the mark just placed, and
      so is the game when the move decides it. */
  lemma ResolvedByMover(g: Game, m: Move)
    requires Valid(g) && Accepts(g, m)
    ensures Won(BoardAt(ApplyMove(g, m).boards, m.board)) != Clear ==>
      Won(BoardAt(ApplyMove(g, m).boards, m.board)) == g.current
    ensures ApplyMove(g, m).winner != Clear ==> ApplyMove(g, m).winner == g.current
  {
    var b := BoardAt(g.boards, m.board);
    PlayedBoardUnresolved(g, m);
    MetaUnresolved(g);
    AcceptedParts(g, m);
    NewWinIsMover(b.cells, m.cell, g.current);
    var w := Won(Played(g, m));
    if w != Clear {
      NewWinIsMover(g.meta.cells, m.board, w);
    }
  }

  /** The game has a winner exactly when the meta-board has a uniform line,
      and the winner is the mark of the first such line. */
  lemma GameWonIffMetaLine(g: Game)
    requires Valid(g)
    ensures g.winner != Clear <==> Winner(g.meta.cells).Win?
    ensures g.winner != Clear ==> g.winner == Winner(g.meta.cells).mark
  {
    WinnerMark(g.meta.cells);
  }

  /** Over all sub-boards, X has been played as often as O when X is to
      move, and once more when O is to move. */
  lemma MarkBalance(g: Game)
    requires Valid(g)
    ensures Tally(g.boards, X) - Tally(g.boards, O) == (if g.current == X then 0 else 1)
    ensures g.current == X || g.current == O
  {
  }

  /** Any sequence of moves from a valid state ends in a valid state. */
  lemma {:induction false} PlayPreservesValid(g: Game, moves: seq<Move>)
    requires Valid(g)
    ensures Valid(Play(g, moves))
    decreases |moves|
  {
    if moves != [] {
      ApplyMovePreservesValid(g, moves[0]);
      PlayPreservesValid(ApplyMove(g, moves[0]), moves[1..]);
    }
  }

  /** Every state reachable from the start is valid; in particular the board
      the next move is confined to is never a resolved one. */
  lemma ReachableValid(moves: seq<Move>)
    ensures Valid(Play(Initial, moves))
    ensures Play(Initial, moves).active.Some? ==>
      Won(BoardAt(Play(Initial, moves).boards, Play(Initial, moves).active.value)) == Clear
  {
    InitialValid();
    PlayPreservesValid(Initial, moves);
  }
}
