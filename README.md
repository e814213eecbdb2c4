# Othello engine: rules, evaluators, time-budgeted alpha-beta and the game loop

This project models, in Dafny, the core of a Python Othello (Reversi) engine
called `VietnameseChess`:

- `evaluations.py` holds the rules and the heuristics. The rules are the
  ray scan, legality, the legal-move list in row-major order and
  move-with-flips. The heuristics are the final score, the simple
  weighted table, good/bad and the corner-adaptive tables.
- `algorithms.py` is a minimax search with alpha-beta pruning. Each node
  splits its time budget evenly over its children and passes the time a
  child did not use on to the siblings still to come.
- `main.py` is the game class. It seeds the board, places and flips tiles,
  plays one timed turn, chooses a move by evaluator mode and runs the
  120-turn loop with two 60-second clocks.

Modules, one per concern:

- `Rules` (`rules.dfy`): boards are `seq<seq<int>>` holding -1, 0 and 1.
  - Ray scan: `HasFlip`, with the loop `HasTileToFlip` proved against it and
    the characterisation `HasFlipChar`.
  - Legality: `IsLegalAction`. `LegalMoves` gives the legal moves and their
    row-major order (`LegalMovesSpec`).
  - `MakeMove`: the copy-and-flip loop, proved equal to the cell-wise
    specification `Moved`.
  - Counting lemmas. A legal move fills exactly one empty cell, so the
    search terminates. It also flips at least one opponent tile.
- `Evaluations` (`evaluations.dfy`): each evaluator is a loop proved equal
  to a specification function, with lemmas saying what the function means.
  - The final score has the sign of the tile difference.
  - The good/bad walks keep weights of empty cells in the range 0..8.
  - The two corner tables are a class, `CornerTables`, whose methods rewrite
    the tables in place.
- `Search` (`search.dfy`): `Search` is the minimax function. The wall clock
  is an oracle parameter, and scores are integers extended with the two
  infinities. `Minimax` and its child loops are proved equal to `Search`.
- `AlphaBeta` (`alphabeta.dfy`) relates `Search` to `Plain`, a minimax with
  no pruning and no clock:
  - the fail-soft alpha-beta guarantee;
  - with the full window and no time cutoff, the same value and move as
    `Plain`;
  - the chosen move is legal;
  - the sibling budgets always add up to the node's time limit.
- `Game` (`game.dfy`): class `VietnameseChess`, whose fields are updated
  in place. `Select`, `Play`, `Turns` and `RunSpec` are the value-level
  specifications its methods are proved against. The run-level lemmas cover
  the turn log, the clocks, the tile counter and the errors a run can raise.

The model follows the code as written, including behaviour that looks
unintended. Each such quirk has a lemma that shows it:

- `evaluate_good` leaves its whole direction loop, not just one direction,
  when the first neighbour is off the board or the tile's own colour
  (`GoodFirstDirectionBlocks`).
- `evaluate_bad` adds each direction to the previous probe, not to the tile
  (`BadProbes`, `BadLooksUpOnly`).
- The bottom-right block of `evaluate_corner` tests `board[0][0] == 1`
  instead of its own corner (`CornerBottomRight`).
- `num_tiles[1]` and `num_tiles[-1]` name the same slot of a two-element
  list, so slot 0 never changes and the two updates in `flip_tiles` cancel
  out (`MoveTile`, `Transfer`, `PlayTally`).

The evaluator-mode dispatch passes the one-argument `evaluate_corner` to a
search that calls it with two arguments. So mode 3 raises a `TypeError`
exactly when the search scores a leaf on the time cutoff, and returns the
search's move otherwise (`SelectCorner`).

## Model

| member | source | states |
|---|---|---|
| Rules.ScanSound | evaluations.py:32-41 | a found end of ray is the player's own tile, with only opponent tiles before it |
| Rules.ScanComplete | evaluations.py:32-41 | conversely, a run of opponent tiles ending in an own tile is found |
| Rules.HasFlipChar | evaluations.py:28-41 | has_tile_to_flip holds iff the player is ±1, the origin is on the board and the ray holds at least one opponent tile followed by an own tile |
| Rules.HasTileToFlip | evaluations.py:28-41 | the scanning loop returns exactly HasFlip |
| Rules.LegalActionChar | evaluations.py:63-76 | a move is legal iff the player is ±1, the cell is on the board and empty, and some direction has a flippable run |
| Rules.LegalMovesSpec | evaluations.py:79-86 | the legal-move list holds exactly the legal cells, in strictly increasing row-major order |
| Rules.GetLegalMoves | evaluations.py:79-86 | the nested loop returns exactly the legal cells, in row-major order |
| Rules.FlipRun | evaluations.py:49-54 | started on a direction with a flippable run, with the earlier directions already flipped, the loop extends the cell-wise move specification by that direction |
| Rules.MakeMove | evaluations.py:44-55 | the copy-and-flip loop returns the board Moved specifies |
| Rules.MovedShape | evaluations.py:44-55 | a move keeps the board square and of the same size, with tiles only |
| Rules.MovedCell | evaluations.py:44-55 | the move cell gets the player's tile; any other changed cell was an opponent tile on a flanked run and now holds the player's tile |
| Rules.MovedEmpties | evaluations.py:44-55 | a legal move fills exactly one empty cell |
| Rules.LegalFlipsOne | evaluations.py:44-55 | a legal move flips at least one opponent tile |
| Rules.MovedTileCounts | evaluations.py:44-55 | after a legal move the opponent has fewer tiles, and the mover gains one plus the number flipped |
| Rules.CountPartition | main.py:177-187 | the counts of -1, 0 and 1 add up to the number of cells |
| Evaluations.TablesShape | evaluations.py:7-23 | both weight tables are 8x8 |
| Evaluations.TileSumCounts | evaluations.py:89-93 | the tile sum is the count of 1s minus the count of -1s |
| Evaluations.FinalScore | evaluations.py:89-99 | the final score has the sign of the tile sum and is offset by 10000 away from zero |
| Evaluations.FinalScoreWinner | evaluations.py:89-99 | the final score is positive, negative or zero exactly as player 1 has more, fewer or as many tiles as player -1 |
| Evaluations.EvaluateFinal | evaluations.py:89-99 | the summing loop returns FinalScore |
| Evaluations.EvaluateSimpleTable | evaluations.py:102-111 | the loop returns (2 x weighted sum + mobility x player) x 10 + tile sum |
| Evaluations.GoodShape | evaluations.py:114-137 | evaluate_good is the tile times a weight in 0..8 that is 0 or the weight of an empty cell |
| Evaluations.GoodFirstDirectionBlocks | evaluations.py:118-125 | when the up-left neighbour is off the board or the same colour, the whole direction loop stops and the score is 0 |
| Evaluations.EvaluateGood | evaluations.py:114-137 | the nested walk returns the Good specification |
| Evaluations.BadShape | evaluations.py:140-150 | evaluate_bad is minus twice the tile times a weight in 0..8 that is 0 or the weight of an empty cell |
| Evaluations.BadProbes | evaluations.py:143-146 | the eight probes are the cumulative offsets of MOVE_DIRS from the tile |
| Evaluations.BadLooksUpOnly | evaluations.py:143-148 | evaluate_bad depends only on rows up to the tile's own row |
| Evaluations.EvaluateBad | evaluations.py:140-150 | the probing loop returns the Bad specification |
| Evaluations.EvaluateGoodBad | evaluations.py:153-162 | the loop returns 2 x (sum of good and bad over tiles) + 2 x player x mobility |
| Evaluations.CornerDenominator | evaluations.py:259 | the tapering denominator 65 - tiles placed is at least 1 |
| Evaluations.GroupUpdateNone | evaluations.py:170-171 | an empty corner leaves its table untouched |
| Evaluations.CornerUpdateCell | evaluations.py:170-248 | the corner blocks change only the three neighbours of each corner, and only to 1 or 100 |
| Evaluations.CornerOwned | evaluations.py:170-228 | for the first three corners, an occupied corner sets its edge neighbours to 100 in the opponent's table and 1 in the owner's, and its diagonal neighbour to 1 in both |
| Evaluations.CornerBottomRight | evaluations.py:230-248 | a bottom-right corner held by 1 rewrites its neighbours only when board[0][0] is also 1 |
| Evaluations.CornerTables.constructor | evaluations.py:16-25 | both tables start as copies of POINT_TABLE_0 |
| Evaluations.CornerTables.Put | evaluations.py:172-173 | one cell of each table is written and nothing else |
| Evaluations.CornerTables.RewriteGroup | evaluations.py:171-188 | the three neighbours of a corner are rewritten for its owner |
| Evaluations.CornerTables.CornerBlock | evaluations.py:170-188 | one corner block rewrites the tables as its owner test says |
| Evaluations.CornerTables.Score | evaluations.py:250-259 | the scoring loop returns the table score plus 3 x tile sum / (65 - tiles placed) |
| Evaluations.CornerTables.EvaluateCorner | evaluations.py:165-259 | the tables are updated in place by all four corner blocks, then the board is scored on the new tables |
| Search.Spare | algorithms.py:18-19 | the spare time is never negative, never above the limit, and is the limit less the time taken when that fits |
| Search.Search | algorithms.py:6-61 | every search returns a finite value and a spare time within 0..limit |
| Search.Children | algorithms.py:28-61 | once the loop has seen a child, its value is finite |
| Search.SearchCases | algorithms.py:11-22 | the cutoff case returns the evaluator's score; with no legal moves it is the final score after a second pass, otherwise a search for the opponent |
| Search.SearchLoopCase | algorithms.py:24-61 | with legal moves, the search is the child loop from slot limit / moves |
| Search.ChildBoard | algorithms.py:30-32 | each child board is a legal move's board, 8x8 with fewer empty cells |
| Search.ChildrenStep | algorithms.py:30-40 | one child extends the loop while beta > alpha and ends it otherwise |
| Search.Minimax | algorithms.py:6-61 | the recursive method returns exactly the Search outcome |
| Search.MaxLoop | algorithms.py:28-44 | the maximising child loop computes Children |
| Search.MaxStep | algorithms.py:29-40 | one maximising child continues or cuts the loop as Children does |
| Search.MinLoop | algorithms.py:45-61 | the minimising child loop computes Children |
| Search.MinStep | algorithms.py:46-57 | one minimising child continues or cuts the loop as Children does |
| Search.SearchChild | algorithms.py:31-32 | a child search runs on the moved board, for the opponent, with the current slot |
| Search.Redistribute | algorithms.py:33-34 | the next slot adds an equal share of the spare time, except after the last child |
| AlphaBeta.SearchSound | algorithms.py:6-61 | without a time cutoff the value is fail-soft with respect to plain minimax: exact inside (alpha, beta), an upper bound at or below alpha, a lower bound at or above beta, and inside the window the move is the same |
| AlphaBeta.ChildrenSound | algorithms.py:28-61 | the child loops keep the fail-soft guarantee for the player to move |
| AlphaBeta.SearchExact | algorithms.py:6-61 | with the full window and no cutoff, the search returns plain minimax's value and move |
| AlphaBeta.SearchIndependent | algorithms.py:6-61 | two full-window searches without cutoff agree, whatever their time limits, evaluators and clocks |
| AlphaBeta.SearchEvalFree | algorithms.py:11-12 | the evaluator is consulted only on a time cutoff |
| AlphaBeta.ChildrenCut | algorithms.py:28-61 | a cutoff in an earlier child is never lost |
| AlphaBeta.PlainLoopMono | algorithms.py:35-37 | the best value never gets worse while children are absorbed |
| AlphaBeta.VisitedOrder | algorithms.py:29-40 | the children visited are a prefix of the legal moves in order, each with a finite value; the loop stops early only when beta <= alpha |
| AlphaBeta.VisitedBest | algorithms.py:35-37 | the result is the first strictly best visited child, or the starting value when none beats it |
| AlphaBeta.VisitedWindow | algorithms.py:38-40 | a max node only raises alpha and a min node only lowers beta; the other bound never changes |
| AlphaBeta.VisitedPooled | algorithms.py:24-34 | each visited child's slot is the previous slot plus its share of the previous spare time |
| AlphaBeta.SearchBudget | algorithms.py:24-34 | at every child, its slot times the children left plus the time already used equals the node's limit, so no slot exceeds what is left |
| AlphaBeta.SearchMove | algorithms.py:6-61 | a returned move is legal for the player, or, when that player has none, for the opponent; with moves and time there is always one |
| AlphaBeta.LoopMove | algorithms.py:28-61 | with legal moves and time left, the move returned is legal for the player to move |
| Game.Zeros | main.py:11 | a fresh board is size x size and all empty |
| Game.SquaresCentre | main.py:19-22 | the four seeded squares are the centre 2x2 cells and lie on the board |
| Game.SeededCell | main.py:24-31 | seeding gives 1 on the anti-diagonal and -1 on the diagonal of the centre, and nothing else changes |
| Game.NewGame | main.py:9-31 | a new game of size >= 2 has two tiles each in the centre, all else empty, and the counter [2, 2] tallies them |
| Game.Evaluator | main.py:201-206 | modes 1-3 hand minimax an evaluator defined on every 8x8 board |
| Game.SelectLegal | main.py:189-210 | a chosen move is legal for the player, or for the opponent when the player has none; a mode that does not raise always returns a move when one exists; ValueError iff the mode is outside 0-3; only mode 3 raises a TypeError; mode 0 returns no move when the player has none |
| Game.SelectCorner | main.py:205-209 | mode 3 raises a TypeError exactly when the search hit a time cutoff, and otherwise returns the search's move |
| Game.SelectOptimal | main.py:201-209 | without a time cutoff, modes 1-3 return plain minimax's best move |
| Game.ApplyMove | main.py:33-37 | placing a move keeps the board of tiles, its size, the counter length and the player |
| Game.Play | main.py:102-125 | a turn keeps the board of tiles, its size and the player |
| Game.PlayWith | main.py:108-125 | the part of a turn after the move is chosen keeps the board of tiles, its size and the player |
| Game.PlayTime | main.py:108-125 | a turn returns -1 iff the player has no legal move; otherwise the measured time, at most 3 s and at most the time left; a chosen move that took longer than 3 s or than the time left is a TimeoutError; a failed turn changes nothing |
| Game.PlayInGame | main.py:108-125 | a turn on the game's own board fails only by timeout, or by TypeError in mode 3, and a timed turn plays a legal move and bumps counter slot 1 |
| Game.PlayTally | main.py:33-52 | a turn keeps the counter's total equal to the tiles on the board and never changes slot 0 |
| Game.TurnsLog | main.py:139-160 | the loop extends the log with alternating players, never two passes in a row before the last turn, and stops early without error only after two passes |
| Game.RunLog | main.py:132-160 | a run plays at most 120 alternating turns starting with player 1, and ends early without error only after two passes in a row |
| Game.TurnsClock | main.py:139-159 | each player's time left stays 60 s less its spent time, and non-negative |
| Game.RunClock | main.py:136-159 | at the end of a run each clock is 60 s less what that player spent, never negative, and every turn passed or took at most 3 s |
| Game.TurnsTally | main.py:139-160 | the loop keeps the counter's total equal to the tiles on the board |
| Game.RunTally | main.py:33-52 | after a run the counter's total equals the tiles on the board |
| Game.TurnsErrors | main.py:139-160 | the loop raises no ValueError, and a TypeError only with mode 3 |
| Game.RunErrors | main.py:129-130 | a run raises ValueError iff the current player is not ±1, and a TypeError only when a mode is 3 |
| Game.AnnounceWinner | main.py:163-173 | without an error the verdict is final, and the agent won iff the final score favours its side |
| Game.VietnameseChess.constructor | main.py:9-13 | an empty size x size board, player 1 to move, counter [2, 2] |
| Game.VietnameseChess.InitBoard | main.py:15-31 | the board is seeded with the four centre squares, and is a no-op below size 2 |
| Game.VietnameseChess.MoveTile | main.py:33-37 | a legal move is placed and flipped and bumps counter slot 1; any other location changes nothing |
| Game.VietnameseChess.FlipTiles | main.py:39-52 | the flip loops turn the placed board into the move's board and leave the counter as it was |
| Game.VietnameseChess.FlipRay | main.py:40-52 | flipping one direction extends the cell-wise move specification by that direction |
| Game.VietnameseChess.Transfer | main.py:48-50 | the two counter updates of a flip cancel out |
| Game.VietnameseChess.HasLegalAction | main.py:54-59 | true iff the current player has a legal move |
| Game.VietnameseChess.CountScores | main.py:177-187 | the counts of 1 and -1 tiles, adding up to at most the number of cells |
| Game.VietnameseChess.SelectMoveLocation | main.py:189-210 | the mode dispatch returns the Select choice or error |
| Game.VietnameseChess.PlayingTurn | main.py:102-125 | the turn's result and the new object state are those Play specifies |
| Game.VietnameseChess.RunTurns | main.py:139-160 | the remaining turns leave the object in the state Turns specifies, with its error |
| Game.VietnameseChess.Run | main.py:127-175 | the run leaves the state RunSpec specifies and returns its announced verdict |

## Left out

- Printing and the board displays (`print_begin_board`, `print_new_state_board`) are not modelled. `run` prints its scores and winner and returns None; `Run` returns that printed verdict as a `Report` instead, so that what is printed can be stated, but the printing itself is not modelled. The `go` entry point is not modelled either; it only builds a game and starts it.
- The wall clock (`time.perf_counter`), `random.choice` and the time a move choice took are oracle parameters (`Clock`, `pick`, `elapsed`). The model states what holds for any such oracle, within the restriction on `Clock` below.
- Search.Search: the clock oracle is a function of the call (`Call`: board, player, time limit and no-legal flag), so two searches with the same board, player, limit and flag always take the same time, even when their alpha-beta windows differ or they are reached along different paths. `time.perf_counter` gives no such guarantee; runs in which two such calls take different times are not modelled.
- Python floats are modelled as exact `real` values. Scores are `int`, extended with `NegInf`/`PosInf` for `float('-inf')` and `float('inf')`. Rounding is not modelled.
- The table-based evaluators index fixed 8x8 tables, so modes 1-3 are modelled on 8x8 boards only (`Supported`). Mode 0 and the rest of the game work for any square board.
- `evaluate_simple_table` and `evaluate_good_bad` compute a `total_tile` that `evaluate_good_bad` never uses. The model computes only what reaches the result.
- Search.MaxLoop: the child loops of `minimax` are tail-recursive methods, not `for` loops. The same holds for `Game.VietnameseChess.RunTurns` and the `for` loop of `run`.
- Search.Minimax: it has an extra out-parameter `cut`, which is true when a time cutoff scored a leaf somewhere in the search. The source has no such result; the model needs it to tell when mode 3 raises.
- Game.SelectCorner: minimax's two-argument call of the one-argument `evaluate_corner` is modelled as the `TypeError` it raises. The corner evaluator is therefore never reached from the game loop. Its effect on the shared tables is modelled on its own, in `CornerTables`.
- Game.Select: when the player has no legal move, minimax passes and returns the opponent's move. `playing_turn` never asks in that state, so this is stated (`SelectLegal`) but never played.
- Game.VietnameseChess.FlipTiles: it works on a local copy of the board that it writes back once. The counter updates are done by `Transfer`, and the two updates always cancel.
- Game.RunTally: the counter tally and `NewGame` hold for boards of size at least 2. Below that, `init_board` leaves the board empty while the counter says [2, 2].
- Evaluations.CornerTables.EvaluateCorner: the tables are fields of one object the caller owns, not module-level globals shared across calls.
