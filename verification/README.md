# Super Tic-Tac-Toe game engine in Dafny

This project models the game logic of `tictactoe.cpp`, an "Ultimate" (Super) Tic-Tac-Toe game.
Nine 3x3 sub-boards sit in a 3x3 arrangement. Winning a sub-board claims the cell at the same position on the meta-board, and three claimed cells in a line on the meta-board win the game.
The cell a player marks sends the opponent to the sub-board at the same position, unless that sub-board is already won.

The model has four modules.

- `LineGrid` (`line_grid.dfy`) covers the 3x3 grid and the win detector `check_win`.
  - `Winner` is a reference definition: the first line, in the detector's order, whose three cells hold the same non-empty mark. The order is rows top to bottom, then columns left to right, then the leading diagonal, then the anti-diagonal.
  - `CheckWin` follows the source's three loops phase by phase and is proved to compute `Winner`.
  - A result carries the winning mark and the integer endpoints `(sx, sy)-(ex, ey)` of the line, with `x` the column, as in the source's `array[y][x]`.
- `Engine` (`engine.dfy`) holds the game state and the move step.
  - The state holds the nine sub-boards, the meta-board, the mark to move, the active board and the game's winner.
  - `ApplyMove` is one pass of the game loop's update: eligibility, placing the mark, the sub-board check, promotion to the meta-board and the redirect.
  - The mouse click becomes an explicit `Move(board, cell)`.
  - The active board is an `Option` instead of the `-1` sentinel.
- `Invariants` (`invariants.dfy`) states the invariant of every reachable state and proves it is kept by any move.
  - Every board's recorded result is the detector's verdict on its cells.
  - The meta-board mirrors the sub-boards, and the game's winner is the meta-board's result.
  - The active board is never a won one.
  - X and O counts are balanced with the player to move.
- `Scenarios` (`scenarios.dfy`) works concrete positions through the model: detection precedence, the opening move, ignored moves, a winning move and a plain redirect.

Three behaviours of the code are easy to miss, and the model keeps each of them.

- When a board is forced, the code does not check whether that board is won. It only skips won boards when any board may be played. The model does the same (`Engine.BoardOpen`). `Invariants.AcceptedBoardUnwon` shows that under the invariant a forced board is never won anyway.
- After every accepted move the code recomputes the active board, including the move that wins the game. The model does the same. No move is accepted after that (`Engine.ApplyMove`), so the value has no effect.
- A move the code does not accept is ignored without a reason. The model returns the unchanged state.

Coordinates are `(x, y)` with `x` the column throughout, for boards as well as cells. This follows the source's `array[y][x]` indexing, not a (row, column) order.

## Model

| member | source | states |
|---|---|---|
| LineGrid.WinnerSpec | tictactoe.cpp:45-150 | A reported mark is non-empty and fills all three cells of the reported line. That line is one of the eight and the first uniform one in detection order. The detector reports nobody exactly when no line holds three equal non-empty marks. |
| LineGrid.WinnerIsFirstUniform | tictactoe.cpp:48-147 | The detector reports a line exactly when that line is uniform and no line tried before it is. |
| LineGrid.NoneBeforeMeansLowerRanks | tictactoe.cpp:48-147 | The lines tried before a line are exactly those earlier in the order: rows top to bottom, columns left to right, leading diagonal, anti-diagonal. |
| LineGrid.FirstUniformIsReported | tictactoe.cpp:48-147 | The first uniform line is the one the detector returns, with that line's mark and endpoints. |
| LineGrid.WinnerEndpoints | tictactoe.cpp:63-141 | Reported endpoints are (0,y)-(2,y) for a row, (x,0)-(x,2) for a column, (0,0)-(2,2) or (2,0)-(0,2) for a diagonal. |
| LineGrid.LoneLineWins | tictactoe.cpp:63-143 | Each of the eight lines, filled with one mark on an otherwise empty grid, is reported with that mark and that line's own endpoints. |
| LineGrid.ClearGridHasNoWinner | tictactoe.cpp:149 | A grid with every cell empty has no winner. |
| LineGrid.NewWinIsMover | tictactoe.cpp:180-191 | Writing a mark into a grid nobody has won can only produce a win for that mark. |
| LineGrid.NewUniformLine | tictactoe.cpp:180-191 | A line that a single write makes uniform passes through the written cell and holds the written mark. |
| LineGrid.CountPut | tictactoe.cpp:180 | Writing a mark into an empty cell adds one of that mark and removes one empty cell. Every other count is unchanged. |
| LineGrid.ScanRows | tictactoe.cpp:48-71 | The row phase returns the detector's result when it finds a row. When it returns nothing, no row is uniform. |
| LineGrid.ScanColumns | tictactoe.cpp:73-96 | Once no row matched, the column phase returns the detector's result when it finds a column. When it returns nothing, no column is uniform. |
| LineGrid.ScanDiagonals | tictactoe.cpp:98-149 | Once no row or column matched, the diagonal phase returns exactly the detector's result, including when a corner is empty. |
| LineGrid.CheckWin | tictactoe.cpp:45-150 | The three phases run in order compute the reference result `Winner`. |
| Engine.Toggle | tictactoe.cpp:182-185 | The mark passed to the other player is never empty and never the current mark. |
| Engine.Record | tictactoe.cpp:180-191 | Writes the mark into one cell and leaves every other cell alone. The recorded result is replaced only when the detector finds a line. |
| Engine.Promote | tictactoe.cpp:337-355 | The meta-board cell at the sub-board's position takes the winning mark and no other meta cell changes. When the detector then finds a line on the meta-board, that result becomes the meta-board's record and its mark becomes the game's winner. Otherwise both the record and the winner stay as they were. |
| Engine.Redirect | tictactoe.cpp:357-365 | The opponent is sent to the board named by the cell just played when that board is unresolved, and to any board otherwise. |
| Engine.ApplyMove | tictactoe.cpp:309-369 | The game accepts a move when it is not yet won, the board is the forced one (or, when none is forced, any board nobody has won), and the cell is clear. A move the game does not accept leaves the state unchanged, and once the game is won no move changes it. An accepted move writes the current mark into the chosen cell, passes the turn, and sends the opponent to the board named by the played cell, or to any board when that board is won. |
| Engine.Play | tictactoe.cpp:309-350 | Once the game has a winner, no sequence of further moves changes the state. |
| Engine.PlayAppend | tictactoe.cpp:287-369 | Playing one sequence of moves and then another ends in the same state as playing the two sequences joined together. |
| Invariants.InitialValid | tictactoe.cpp:18-19 | The starting state is valid: empty boards, X to move, no winner. |
| Invariants.ApplyMovePreservesValid | tictactoe.cpp:309-369 | Every move, accepted or ignored, keeps the invariant. |
| Invariants.StepBoardsAgree | tictactoe.cpp:186-191 | After a move every sub-board's recorded result is the detector's verdict on its cells. |
| Invariants.StepMetaMirrors | tictactoe.cpp:337-342 | After a move each meta cell holds the winner of the sub-board at its position. |
| Invariants.StepMetaAgrees | tictactoe.cpp:343-350 | After a move the meta-board's result is the detector's verdict on it, and the game's winner is that result's mark. |
| Invariants.StepBalanced | tictactoe.cpp:180-185 | After a move X and O are still balanced with the player to move. |
| Invariants.MarkBalance | tictactoe.cpp:180-185 | In a valid state the number of X marks minus the number of O marks is 0 when X is to move and 1 when O is, and the mark to move is X or O. |
| Invariants.MoveTouchesOneCell | tictactoe.cpp:175-185 | An accepted move changes one cell of one sub-board, to the current mark. Nothing else in the sub-boards changes. |
| Invariants.UnchangedIffRejected | tictactoe.cpp:309-333 | A move leaves the state unchanged exactly when the game does not accept it, because an accepted move always passes the turn. |
| Invariants.AcceptedBoardUnwon | tictactoe.cpp:315-333 | A move the game accepts never lands on a won sub-board, even through the forced branch that does not test for it. |
| Invariants.PlayedBoardUnresolved | tictactoe.cpp:315-333 | The sub-board that takes a move has no recorded result and no uniform line. |
| Invariants.MetaUnresolved | tictactoe.cpp:309 | While nobody has won the game the meta-board has no uniform line. |
| Invariants.WonBoardFrozen | tictactoe.cpp:320-365 | A won sub-board never changes again: neither its cells nor its result. |
| Invariants.MetaCellKept | tictactoe.cpp:338-342 | A meta cell that names a winner is never overwritten. |
| Invariants.ResolvedByMover | tictactoe.cpp:186-350 | A sub-board that a move resolves is won by the mark just placed, and so is the game when the move decides it. |
| Invariants.GameWonIffMetaLine | tictactoe.cpp:343-350 | The game has a winner exactly when the meta-board has a uniform line, and the winner is that line's mark. |
| Invariants.WinnerMark | tictactoe.cpp:45-150 | A detector result names a non-empty mark exactly when it reports a line. |
| Invariants.TallyPutBoard | tictactoe.cpp:180 | Replacing one sub-board changes the mark count over all boards by the difference of the two boards' counts. |
| Invariants.PlayPreservesValid | tictactoe.cpp:308-369 | Any sequence of moves from a valid state ends in a valid state. |
| Invariants.ReachableValid | tictactoe.cpp:287-369 | Every state reachable from the start is valid, and the board the next move is confined to is never a won one. |
| Scenarios.TopRowBeatsBottomRow | tictactoe.cpp:48-71 | With X on the top row and O on the bottom row, X wins with endpoints (0,0)-(2,0). |
| Scenarios.ColumnBeatsDiagonal | tictactoe.cpp:73-147 | A column is reported before a diagonal. |
| Scenarios.OpeningMove | tictactoe.cpp:357-365 | After X opens in the top-left cell of the centre board, O is to move and is sent to the top-left board. |
| Scenarios.ForcedBoardOnly | tictactoe.cpp:330-333 | After that opening, a move on any board other than the forced one is ignored, even into an empty cell. |
| Scenarios.TakenCellIgnored | tictactoe.cpp:175 | After X opens in the centre of the centre board, O is forced back onto that board. O's move into the taken centre cell is ignored, and a move into an empty cell of that board is accepted. |
| Scenarios.NearWinReachable | tictactoe.cpp:309-365 | Four moves from the start reach the position used by the next two scenarios, in which X holds two cells of the top row of the top-right board and is to move there. |
| Scenarios.WinningMoveFreesOpponent | tictactoe.cpp:337-365 | Completing a row wins the board and copies X into the meta-board. Because the played cell names that same board, O may then play anywhere. |
| Scenarios.NonWinningMoveRedirects | tictactoe.cpp:357-365 | A move that completes no line leaves the meta-board empty and sends O to the board named by the cell. |

## Left out

- Rendering is not modelled: the raylib window, the frame loop and all drawing code (`draw_grid`, `draw_placement`, `enlarge_rec`). It has no game logic.
- Mouse hit-testing (`GetMousePosition`, `CheckCollisionPointRec`, `IsMouseButtonPressed`) and the hover fields `select_x`/`select_y` are not modelled. A move names its board and cell directly.
  - The search over boards in the "any board" branch becomes the caller naming the board. The mouse lies in at most one board, so at most one board can take a click.
  - Out-of-range coordinates cannot occur because positions are typed to 0..2.
- The floating-point geometry of `win_grid` (tictactoe.cpp:154-157), `pos` and `size` is not modelled. Only the integer endpoints the detector reports are kept.
- The `printf` announcing the winner (tictactoe.cpp:352-353) is output only.
- There is no draw outcome and no progress claim. The source detects neither a full, unwon sub-board nor a full meta-board, so play can stall. The model keeps that behaviour and proves nothing about termination of play.
- The `assert`s in `check_win` and `main` are not modelled. They only check that the output pointers are non-null and that the board coordinates are set, and both hold by construction in the model.
