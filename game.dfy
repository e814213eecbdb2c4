/** The game object of main.py: a VietnameseChess instance keeps the board,
    the player to move and a two-slot tile counter, applies moves in place,
    picks moves with the configured evaluator and plays the turn loop. */
module Game {
  import opened Rules
  import opened Evaluations
  import opened Search
  import AlphaBeta

  /** The errors the turn loop can raise. */
  datatype Error = TimeoutError | ValueError | TypeError

  /** range(size) is empty for a negative size. */
  function Side(size: int): nat {
    if size < 0 then 0 else size
  }

  /** [[0] * size for _ in range(size)] */
  function Zeros(n: nat): (b: Board)
    ensures |b| == n && IsTiles(b)
    ensures forall r, c :: 0 <= r < n && 0 <= c < n ==> b[r][c] == 0
  {
    seq(n, _ => seq(n, _ => 0))
  }

  /** Python's int() on a float: truncation toward zero. */
  function Trunc(x: real): int {
    if x >= 0.0 then x.Floor else -((-x).Floor)
  }

  /** initial_squares: the four centre cells, in the order init_board
      colours them. */
  function Squares(size: int): seq<Coord> {
    CentreSquares(Trunc(size as real / 2.0 - 1.0), Trunc(size as real / 2.0))
  }

  function CentreSquares(c1: int, c2: int): seq<Coord> {
    [Coord(c1, c2), Coord(c1, c1), Coord(c2, c1), Coord(c2, c2)]
  }

  /** color = i % 2: 0 gives player 1, 1 gives player -1. */
  function Colour(i: int): int {
    if i % 2 == 0 then 1 else -1
  }

  /** A Python list index into a two-element list: -1 and -2 count from the end. */
  function Slot(i: int): nat
    requires -2 <= i < 2
  {
    if i < 0 then i + 2 else i
  }

  function Put(b: Board, s: Coord, v: int): (r: Board)
    requires IsSquare(b) && InBoard(b, s)
    ensures IsSquare(r) && |r| == |b|
  {
    b[s.row := b[s.row][s.col := v]]
  }

  lemma PutCell(b: Board, s: Coord, v: int, r: int, c: int)
    requires IsSquare(b) && InBoard(b, s) && 0 <= r < |b| && 0 <= c < |b|
    ensures Put(b, s, v)[r][c] == if r == s.row && c == s.col then v else b[r][c]
  {
  }

  /** The board after the first i writes of init_board. */
  function Seeded(b: Board, sq: seq<Coord>, i: nat): (r: Board)
    requires IsSquare(b) && i <= |sq| && forall k :: 0 <= k < |sq| ==> InBoard(b, sq[k])
    ensures IsSquare(r) && |r| == |b|
  {
    if i == 0 then b else Put(Seeded(b, sq, i - 1), sq[i - 1], Colour(i - 1))
  }

  /** One colouring step of init_board: writing Colour(i) at the i-th
      square keeps the board a board of tiles and seeds one square more. */
  lemma SeedStep(b0: Board, sq: seq<Coord>, i: nat, b: Board)
    requires IsTiles(b0) && i < |sq| && (forall k :: 0 <= k < |sq| ==> InBoard(b0, sq[k]))
    requires b == Seeded(b0, sq, i) && IsTiles(b)
    ensures var s := sq[i];
            var nb := b[s.row := b[s.row][s.col := Colour(i)]];
            nb == Seeded(b0, sq, i + 1) && IsTiles(nb) && |nb| == |b0|
  {
  }

  /** The centre cells are size/2 - 1 and size/2 in integer arithmetic, and
      they lie on the board. */
  lemma SquaresCentre(size: int)
    requires size >= 2
    ensures Squares(size) == CentreSquares(size / 2 - 1, size / 2)
    ensures 0 <= size / 2 - 1 && size / 2 < size
  {
    var h := size / 2;
    assert size as real / 2.0 == h as real + (size % 2) as real / 2.0;
  }

  /** Colouring the centre square whose corner is (c1, c1) writes 1 at
      (c1, c1 + 1) and (c1 + 1, c1), -1 at (c1, c1) and (c1 + 1, c1 + 1),
      and nothing else. */
  lemma SeededCell(b: Board, c1: int, r: int, c: int)
    requires IsSquare(b) && 0 <= c1 && c1 + 1 < |b| && 0 <= r < |b| && 0 <= c < |b|
    ensures var c2 := c1 + 1;
            Seeded(b, CentreSquares(c1, c2), 4)[r][c] ==
              if (r, c) == (c1, c2) || (r, c) == (c2, c1) then 1
              else if (r, c) == (c1, c1) || (r, c) == (c2, c2) then -1
              else b[r][c]
  {
    var sq := CentreSquares(c1, c1 + 1);
    assert Seeded(b, sq, 0) == b;
    var s1 := Seeded(b, sq, 1);
    var s2 := Seeded(b, sq, 2);
    var s3 := Seeded(b, sq, 3);
    assert s1 == Put(b, sq[0], 1);
    assert s2 == Put(s1, sq[1], -1);
    assert s3 == Put(s2, sq[2], 1);
    assert Seeded(b, sq, 4) == Put(s3, sq[3], -1);
    PutCell(b, sq[0], 1, r, c);
    PutCell(s1, sq[1], -1, r, c);
    PutCell(s2, sq[2], 1, r, c);
    PutCell(s3, sq[3], -1, r, c);
  }

  lemma {:induction false} CountRowZeros(row: seq<int>, v: int)
    requires v != 0 && forall c :: 0 <= c < |row| ==> row[c] == 0
    ensures CountRow(row, v) == 0
  {
    if row != [] {
      CountRowZeros(row[..|row| - 1], v);
    }
  }

  lemma {:induction false} CountZeros(b: Board, v: int)
    requires v != 0 && forall r, c :: 0 <= r < |b| && 0 <= c < |b[r]| ==> b[r][c] == 0
    ensures Count(b, v) == 0
  {
    if b != [] {
      CountZeros(b[..|b| - 1], v);
      CountRowZeros(b[|b| - 1], v);
    }
  }

  /** Writing v into cell s moves that cell from one count to another. */
  lemma CountPut(b: Board, s: Coord, v: int, w: int)
    requires IsSquare(b) && InBoard(b, s)
    ensures Count(Put(b, s, v), w) == Count(b, w) - (if At(b, s) == w then 1 else 0) + (if v == w then 1 else 0)
  {
    CountUpdate(b, s.row, s.col, v, w);
  }

  /** A new game's counter [2, 2] agrees with the seeded board: two tiles
      of each player. */
  lemma NewGameCounts(n: nat, c1: int)
    requires 0 <= c1 && c1 + 1 < n
    ensures Count(Seeded(Zeros(n), CentreSquares(c1, c1 + 1), 4), 1) == 2
    ensures Count(Seeded(Zeros(n), CentreSquares(c1, c1 + 1), 4), -1) == 2
  {
    var sq := CentreSquares(c1, c1 + 1);
    var b := Zeros(n);
    var s1 := Seeded(b, sq, 1);
    var s2 := Seeded(b, sq, 2);
    var s3 := Seeded(b, sq, 3);
    var s4 := Seeded(b, sq, 4);
    assert Seeded(b, sq, 0) == b;
    assert s1 == Put(b, sq[0], 1);
    assert s2 == Put(s1, sq[1], -1);
    assert s3 == Put(s2, sq[2], 1);
    assert s4 == Put(s3, sq[3], -1);
    CountZeros(b, 1);
    CountZeros(b, -1);
    PutCell(b, sq[0], 1, sq[1].row, sq[1].col);
    PutCell(b, sq[0], 1, sq[2].row, sq[2].col);
    PutCell(b, sq[0], 1, sq[3].row, sq[3].col);
    PutCell(s1, sq[1], -1, sq[2].row, sq[2].col);
    PutCell(s1, sq[1], -1, sq[3].row, sq[3].col);
    PutCell(s2, sq[2], 1, sq[3].row, sq[3].col);
    CountPut(b, sq[0], 1, 1);
    CountPut(b, sq[0], 1, -1);
    CountPut(s1, sq[1], -1, 1);
    CountPut(s1, sq[1], -1, -1);
    CountPut(s2, sq[2], 1, 1);
    CountPut(s2, sq[2], 1, -1);
    CountPut(s3, sq[3], -1, 1);
    CountPut(s3, sq[3], -1, -1);
  }

  /** The test of flip_tiles' inner loop on a board of tiles: at step j of
      a ray whose scan found the mover's tile at step K, a cell that is not
      the mover's is an opponent tile before K, and a cell that is the
      mover's ends the run. */
  lemma FlipGuard(b: Board, o: Coord, p: int, k: nat, K: int, j: int, nb: Board)
    requires IsTiles(b) && IsPlayer(p) && k < |MoveDirs| && FlipWalk(b, o, p, k, K, j, nb)
    ensures At(nb, Step(o, MoveDirs[k], j)) != p ==> j < K && At(b, Step(o, MoveDirs[k], j)) == -p
    ensures At(nb, Step(o, MoveDirs[k], j)) == p ==> !IsCell(b, Step(o, MoveDirs[k], j), -p)
  {
    MoveDirsAreDirs();
    ScanSound(b, o, MoveDirs[k], p, 1, K);
    if j < K {
      assert IsOther(b, Step(o, MoveDirs[k], j), p);
    }
  }

  /** The board right after move_tile places the tile is the start of
      the flip walk: only the placed cell differs from `b`. */
  lemma PutStartsMove(b: Board, o: Coord, p: int)
    requires IsSquare(b) && InBoard(b, o)
    ensures IsMovedUpTo(b, o, p, 0, Put(b, o, p))
  {
    var nb := Put(b, o, p);
    forall r, c | 0 <= r < |b| && 0 <= c < |b|
      ensures nb[r][c] == PartialCell(b, o, p, 0, Coord(r, c))
    {
      PutCell(b, o, p, r, c);
    }
  }

  /** Before flip_tiles walks direction k, that ray still reads as on the
      board before the move, so has_tile_to_flip gives the same answer on
      either; a direction with no flippable line leaves the walk where it is. */
  lemma RayUntouched(b: Board, o: Coord, p: int, k: nat, nb: Board)
    requires IsSquare(b) && k < |MoveDirs| && IsMovedUpTo(b, o, p, k, nb)
    ensures HasFlip(nb, o, MoveDirs[k], p) == HasFlip(b, o, MoveDirs[k], p)
    ensures !HasFlip(b, o, MoveDirs[k], p) ==> IsMovedUpTo(b, o, p, k + 1, nb)
  {
    MoveDirsAreDirs();
    var d := MoveDirs[k];
    forall j | j >= 1 && InBoard(nb, Step(o, d, j))
      ensures At(nb, Step(o, d, j)) == At(b, Step(o, d, j))
    {
      RayCellUnflipped(b, o, p, k, j);
    }
    ScanFrame(nb, b, o, d, p, 1);
    if !HasFlip(b, o, d, p) {
      assert forall s :: InBoard(b, s) ==> !OnRun(b, o, p, d, s);
    }
  }

  /** The first of the legal moves, when there is one, is legal. */
  lemma FirstLegal(b: Board, p: int)
    requires IsSquare(b)
    ensures LegalMoves(b, p) != [] ==> IsLegalAction(b, LegalMoves(b, p)[0], p)
  {
    LegalMovesSpec(b, p);
    if LegalMoves(b, p) != [] {
      assert LegalMoves(b, p)[0] in LegalMoves(b, p);
    }
  }

  /** The state a VietnameseChess object holds. */
  datatype Game = Game(board: Board, player: int, tiles: seq<int>)

  /** The tile counter agrees with the board in total: num_tiles[0] +
      num_tiles[1] is the number of tiles on the board. */
  predicate Tally(g: Game) {
    |g.tiles| == 2 && g.tiles[0] + g.tiles[1] == Count(g.board, 1) + Count(g.board, -1)
  }

  /** A new game of size at least 2 (the constructor followed by
      init_board): the four centre cells hold 1 on the anti-diagonal and -1
      on the diagonal, every other cell is empty, each player has two
      tiles, and the counter [2, 2] tallies them. */
  lemma NewGame(size: int)
    requires size >= 2
    ensures var b, h := Seeded(Zeros(size), Squares(size), 4), size / 2;
            IsTiles(b) && |b| == size &&
            (forall r, c :: 0 <= r < size && 0 <= c < size ==>
               b[r][c] == (if (r, c) == (h - 1, h) || (r, c) == (h, h - 1) then 1
                           else if (r, c) == (h - 1, h - 1) || (r, c) == (h, h) then -1
                           else 0)) &&
            Count(b, 1) == 2 && Count(b, -1) == 2 && Tally(Game(b, 1, [2, 2]))
  {
    SquaresCentre(size);
    var h := size / 2;
    var b := Seeded(Zeros(size), Squares(size), 4);
    forall r, c | 0 <= r < size && 0 <= c < size
      ensures b[r][c] == (if (r, c) == (h - 1, h) || (r, c) == (h, h - 1) then 1
                          else if (r, c) == (h - 1, h - 1) || (r, c) == (h, h) then -1
                          else 0)
    {
      SeededCell(Zeros(size), h - 1, r, c);
    }
    NewGameCounts(size, h - 1);
  }

  // ---------------------------------------------------------------------
  // Choosing a move (select_move_location)

  /** The search budget of a turn: 0.5 s once less than 3 s remain, else 2.8 s. */
  function TimeLimit(remain: real): real {
    if remain < 3.0 then 0.5 else 2.8
  }

  /** evaluate_simple_table as an evaluator; it reads an 8x8 board. */
  const SimpleTableEval: Eval := (b: Board, p: int) requires IsStdBoard(b) => SimpleTable(b, p)

  /** evaluate_good_bad as an evaluator; it reads an 8x8 board. */
  const GoodBadEval: Eval := (b: Board, p: int) requires IsStdBoard(b) => GoodBad(b, p)

  /** evaluate_corner takes the board alone, so minimax's two-argument
      call of it raises instead of returning a score. This stand-in is
      never consulted for a value: mode 3 refuses exactly when a search
      reaches a leaf, and SelectCorner shows the choice of stand-in does
      not matter. */
  const CornerStandIn: Eval := (b: Board, p: int) => 0

  /** The evaluator mode 1, 2 or 3 hands to minimax. */
  function Evaluator(id: int): (e: Eval)
    requires 1 <= id <= 3
    ensures Scores(e)
  {
    if id == 1 then SimpleTableEval else if id == 2 then GoodBadEval else CornerStandIn
  }

  /** The boards a mode can be asked about: square ones, and 8x8 ones for
      the modes that search with a table evaluator. */
  predicate Supported(b: Board, id: int) {
    IsSquare(b) && (1 <= id <= 3 ==> IsStdBoard(b))
  }

  /** What select_move_location returns, or the error it raises. */
  datatype Choice = Picked(loc: Option<Coord>) | Refused(err: Error)

  /** select_move_location: mode 0 takes the `pick`-th legal move (the
      random choice), modes 1-3 run minimax from the full window with the
      turn's budget, any other mode is a ValueError. Mode 3 raises a
      TypeError as soon as the search scores a leaf. */
  function Select(id: int, state: Board, player: int, remain: real, clock: Clock, pick: nat): Choice
    requires Supported(state, id)
  {
    if id == 0 then
      var moves := LegalMoves(state, player);
      if moves == [] then Picked(None) else Picked(Some(moves[pick % |moves|]))
    else if 1 <= id <= 3 then
      var o := Search.Search(state, player, TimeLimit(remain), NegInf, PosInf, Evaluator(id), false, clock);
      if id == 3 && o.cut then Refused(TypeError) else Picked(o.move)
    else
      Refused(ValueError)
  }

  // ---------------------------------------------------------------------
  // One turn (playing_turn)

  /** What playing_turn returns (the time the choice took, -1 for a pass),
      or the error it raises. */
  datatype Turn = Took(amount: real) | Failed(err: Error)

  /** move_tile on the game state: a legal move is placed and flipped and
      bumps counter slot 1 (the slot both players' indices name); any
      other location changes nothing. */
  function ApplyMove(g: Game, m: Coord): (r: Game)
    requires IsTiles(g.board) && |g.tiles| == 2
    ensures IsTiles(r.board) && |r.board| == |g.board| && |r.tiles| == 2 && r.player == g.player
  {
    if IsLegalAction(g.board, m, g.player) then
      MovedShape(g.board, m, g.player);
      Game(Moved(g.board, m, g.player), g.player, g.tiles[1 := g.tiles[1] + 1])
    else
      g
  }

  /** playing_turn: a player without a legal move passes (-1). Otherwise
      the move is chosen; a choice that took more than 3 s or more than the
      time left is a TimeoutError, a missing move a TypeError (move_tile
      takes its length), and a chosen move is played. `elapsed` is the
      time the choice took. */
  function Play(g: Game, id: int, state: Board, player: int, remain: real,
                clock: Clock, pick: nat, elapsed: Duration): (r: (Turn, Game))
    requires IsTiles(g.board) && |g.tiles| == 2 && Supported(state, id)
    ensures IsTiles(r.1.board) && |r.1.board| == |g.board| && |r.1.tiles| == 2 && r.1.player == g.player
  {
    if LegalMoves(g.board, g.player) == [] then
      (Took(-1.0), g)
    else
      PlayWith(g, Select(id, state, player, remain, clock, pick), remain, elapsed)
  }

  /** The rest of playing_turn once the choice c is made: a raised error
      propagates, a slow choice is a TimeoutError, a missing move a
      TypeError, and a chosen move is played. */
  function PlayWith(g: Game, c: Choice, remain: real, elapsed: Duration): (r: (Turn, Game))
    requires IsTiles(g.board) && |g.tiles| == 2
    ensures IsTiles(r.1.board) && |r.1.board| == |g.board| && |r.1.tiles| == 2 && r.1.player == g.player
  {
    match c
    case Refused(e) => (Failed(e), g)
    case Picked(loc) =>
      if elapsed > 3.0 || elapsed > remain then (Failed(TimeoutError), g)
      else if loc.None? then (Failed(TypeError), g)
      else (Took(elapsed), ApplyMove(g, loc.value))
  }

  // ---------------------------------------------------------------------
  // The game loop (run)

  /** One entry of the turn log: who moved and what playing_turn returned. */
  datatype Ply = Ply(player: int, amount: real)

  predicate Passed(y: Ply) {
    y.amount < 0.0
  }

  /** Where run ends: the final state, the error it raised if any, the
      turns it played and the time each player has left. */
  datatype Trace = Trace(game: Game, error: Option<Error>, log: seq<Ply>, timeLeft0: real, timeLeft1: real)

  /** The outside world, turn by turn: the clock minimax reads, the index
      random.choice draws and the time the choice of move took. */
  datatype Oracle = Oracle(clock: nat -> Clock, pick: nat -> nat, elapsed: nat -> Duration)

  const NumMoves: nat := 120

  /** The states run can be in: a board of tiles every mode in play can
      handle, and a two-slot counter. */
  predicate Playable(g: Game, m1: int, m2: int) {
    IsTiles(g.board) && |g.tiles| == 2 && Supported(g.board, m1) && Supported(g.board, m2)
  }

  /** The loop of run from turn i on: player 1 plays with mode m1 and its
      own time left, anyone else as player -1 with mode m2. */
  function Turns(g: Game, i: nat, noMove: bool, tl0: real, tl1: real, m1: int, m2: int,
                 o: Oracle, log: seq<Ply>): Trace
    requires Playable(g, m1, m2) && IsPlayer(g.player)
    decreases NumMoves - i, 1
  {
    if i >= NumMoves then
      Trace(g, None, log, tl0, tl1)
    else
      var p := if g.player == 1 then 1 else -1;
      AfterTurn(i, noMove, tl0, tl1, m1, m2, o, log, p,
                Play(g, if p == 1 then m1 else m2, g.board, p, if p == 1 then tl0 else tl1,
                     o.clock(i), o.pick(i), o.elapsed(i)))
  }

  function AfterTurn(i: nat, noMove: bool, tl0: real, tl1: real, m1: int, m2: int,
                     o: Oracle, log: seq<Ply>, p: int, r: (Turn, Game)): Trace
    requires Playable(r.1, m1, m2) && IsPlayer(r.1.player) && i < NumMoves
    decreases NumMoves - i, 0
  {
    match r.0
    case Failed(e) => Trace(r.1, Some(e), log, tl0, tl1)
    case Took(a) =>
      var log' := log + [Ply(p, a)];
      if a < 0.0 && noMove then
        Trace(r.1, None, log', tl0, tl1)
      else
        var tl0' := if a >= 0.0 && p == 1 then tl0 - a else tl0;
        var tl1' := if a >= 0.0 && p != 1 then tl1 - a else tl1;
        Turns(r.1.(player := -r.1.player), i + 1, a < 0.0, tl0', tl1', m1, m2, o, log')
  }

  /** run: a player other than 1 or -1 is a ValueError; otherwise player 1
      starts, each side with 60 s. */
  function RunSpec(g: Game, m1: int, m2: int, o: Oracle): Trace
    requires Playable(g, m1, m2)
  {
    if g.player != 1 && g.player != -1 then Trace(g, Some(ValueError), [], 60.0, 60.0)
    else Turns(g.(player := 1), 0, false, 60.0, 60.0, m1, m2, o, [])
  }

  /** The verdict run prints: the agent's and the random player's tile
      counts and whether the agent won, or the error that ended the run. */
  datatype Report = Final(agentScore: nat, randomScore: nat, agentWon: bool) | Aborted(err: Error)

  function Announce(t: Trace, isPlayer1Agent: bool): Report {
    if t.error.Some? then Aborted(t.error.value)
    else
      var c1, c2 := Count(t.game.board, 1), Count(t.game.board, -1);
      var agent := if isPlayer1Agent then c1 else c2;
      var rand := if isPlayer1Agent then c2 else c1;
      Final(agent, rand, agent > rand)
  }

  // ---------------------------------------------------------------------
  // What a choice, a turn and a run guarantee

  /** A move select_move_location returns is legal for the player to move,
      or, when that player has none, for the opponent (minimax passes the
      turn); with a legal move available a mode that does not raise always
      returns one; only a mode outside 0-3 is a ValueError and only mode 3
      raises anything else. */
  lemma SelectLegal(id: int, state: Board, player: int, remain: real, clock: Clock, pick: nat)
    requires Supported(state, id)
    ensures var c := Select(id, state, player, remain, clock, pick);
            (c.Picked? && c.loc.Some? ==>
               IsLegalAction(state, c.loc.value, player) ||
               (LegalMoves(state, player) == [] && IsLegalAction(state, c.loc.value, Opponent(player)))) &&
            (LegalMoves(state, player) != [] && c.Picked? ==> c.loc.Some?) &&
            (c == Refused(ValueError) <==> !(0 <= id <= 3)) &&
            (c.Refused? && c.err != ValueError ==> id == 3 && c.err == TypeError) &&
            (id == 0 && LegalMoves(state, player) == [] ==> c == Picked(None))
  {
    LegalMovesSpec(state, player);
    if id == 0 {
      var moves := LegalMoves(state, player);
      if moves != [] {
        assert moves[pick % |moves|] in moves;
      }
    } else if 1 <= id <= 3 {
      AlphaBeta.SearchMove(state, player, TimeLimit(remain), NegInf, PosInf, Evaluator(id), false, clock);
    }
  }

  /** Mode 3 raises exactly when a search with any two-argument evaluator
      would score a leaf, and otherwise returns that search's move: which
      evaluator stands in for evaluate_corner does not matter. */
  lemma SelectCorner(state: Board, player: int, remain: real, clock: Clock, pick: nat, e: Eval)
    requires IsStdBoard(state) && Scores(e)
    ensures var o := Search.Search(state, player, TimeLimit(remain), NegInf, PosInf, e, false, clock);
            Select(3, state, player, remain, clock, pick) == if o.cut then Refused(TypeError) else Picked(o.move)
  {
    AlphaBeta.SearchEvalFree(state, player, TimeLimit(remain), NegInf, PosInf, CornerStandIn, e, false, clock);
  }

  /** When the search of modes 1-3 finishes without a time cutoff, the move
      chosen is the one plain minimax chooses. */
  lemma SelectOptimal(id: int, state: Board, player: int, remain: real, clock: Clock, pick: nat)
    requires 1 <= id <= 3 && IsStdBoard(state)
    ensures var o := Search.Search(state, player, TimeLimit(remain), NegInf, PosInf, Evaluator(id), false, clock);
            !o.cut ==> Select(id, state, player, remain, clock, pick) == Picked(AlphaBeta.Plain(state, player, false).move)
  {
    AlphaBeta.SearchExact(state, player, TimeLimit(remain), Evaluator(id), false, clock);
  }

  /** playing_turn returns -1 exactly when the player to move has no legal
      move, and otherwise the measured time, which is at most 3 s and at
      most the time left; a chosen move that took longer than either is a
      TimeoutError; a turn that raises leaves the game as it was. */
  lemma PlayTime(g: Game, id: int, state: Board, player: int, remain: real,
                 clock: Clock, pick: nat, elapsed: Duration)
    requires IsTiles(g.board) && |g.tiles| == 2 && Supported(state, id)
    ensures var r := Play(g, id, state, player, remain, clock, pick, elapsed);
            (r.0 == Took(-1.0) <==> LegalMoves(g.board, g.player) == []) &&
            (r.0.Took? ==> r.0.amount == -1.0 || (0.0 <= r.0.amount <= 3.0 && r.0.amount <= remain)) &&
            (r.0.Took? && r.0.amount >= 0.0 ==> r.0.amount == elapsed) &&
            (LegalMoves(g.board, g.player) != [] && Select(id, state, player, remain, clock, pick).Picked?
               && (elapsed > 3.0 || elapsed > remain)
             ==> r.0 == Failed(TimeoutError)) &&
            (r.0.Failed? ==> r.1 == g)
  {
  }

  /** A turn of a game in progress (the choice sees the game's own board
      and player) raises nothing but a TimeoutError, or a TypeError in
      mode 3, and a turn that took time played a legal move of the player:
      the board is the one make_move gives and counter slot 1 went up. */
  lemma PlayInGame(g: Game, id: int, remain: real, clock: Clock, pick: nat, elapsed: Duration)
    requires IsTiles(g.board) && |g.tiles| == 2 && Supported(g.board, id) && 0 <= id <= 3
    ensures var r := Play(g, id, g.board, g.player, remain, clock, pick, elapsed);
            (r.0.Failed? ==> r.0.err == TimeoutError || (id == 3 && r.0.err == TypeError)) &&
            (r.0.Took? && r.0.amount >= 0.0 ==>
               exists m :: IsLegalAction(g.board, m, g.player) &&
                           r.1 == Game(Moved(g.board, m, g.player), g.player, g.tiles[1 := g.tiles[1] + 1]))
  {
    if LegalMoves(g.board, g.player) != [] {
      var c := Select(id, g.board, g.player, remain, clock, pick);
      SelectLegal(id, g.board, g.player, remain, clock, pick);
      PlayWithLegal(g, id, c, remain, elapsed);
    }
  }

  /** Given a choice that is legal for the player to move and that raises
      only mode 3's TypeError, the turn fails only by timeout or that
      TypeError, and a timed turn plays the chosen legal move. */
  lemma PlayWithLegal(g: Game, id: int, c: Choice, remain: real, elapsed: Duration)
    requires IsTiles(g.board) && |g.tiles| == 2
    requires c.Picked? ==> c.loc.Some? && IsLegalAction(g.board, c.loc.value, g.player)
    requires c.Refused? ==> id == 3 && c.err == TypeError
    ensures var r := PlayWith(g, c, remain, elapsed);
            (r.0.Failed? ==> r.0.err == TimeoutError || (id == 3 && r.0.err == TypeError)) &&
            (r.0.Took? && r.0.amount >= 0.0 ==>
               exists m :: IsLegalAction(g.board, m, g.player) &&
                           r.1 == Game(Moved(g.board, m, g.player), g.player, g.tiles[1 := g.tiles[1] + 1]))
  {
    var r := PlayWith(g, c, remain, elapsed);
    if r.0.Took? && r.0.amount >= 0.0 {
      var m := c.loc.value;
      assert r.1 == Game(Moved(g.board, m, g.player), g.player, g.tiles[1 := g.tiles[1] + 1]);
    }
  }

  /** A turn keeps the counter's total equal to the number of tiles on the
      board, and never changes slot 0. */
  lemma PlayTally(g: Game, id: int, state: Board, player: int, remain: real,
                  clock: Clock, pick: nat, elapsed: Duration)
    requires IsTiles(g.board) && Tally(g) && Supported(state, id)
    ensures var g' := Play(g, id, state, player, remain, clock, pick, elapsed).1;
            Tally(g') && g'.tiles[0] == g.tiles[0]
  {
    if LegalMoves(g.board, g.player) != [] {
      var c := Select(id, state, player, remain, clock, pick);
      if c.Picked? && c.loc.Some? {
        ApplyTally(g, c.loc.value);
      }
    }
  }

  /** Playing move m (or ignoring it, when it is not legal) keeps the
      counter's total equal to the number of tiles on the board, and never
      changes slot 0. */
  lemma ApplyTally(g: Game, m: Coord)
    requires IsTiles(g.board) && Tally(g)
    ensures Tally(ApplyMove(g, m)) && ApplyMove(g, m).tiles[0] == g.tiles[0]
  {
    if IsLegalAction(g.board, m, g.player) {
      var k :| 0 <= k < |MoveDirs| && HasFlip(g.board, m, MoveDirs[k], g.player);
      assert IsPlayer(g.player);
      MovedTileCounts(g.board, m, g.player);
    }
  }

  /** The player that plays turn j of a run: player 1 on even turns. */
  function Mover(j: int): int {
    if j % 2 == 0 then 1 else -1
  }

  lemma MoverNext(i: int)
    ensures Mover(i + 1) == -Mover(i)
  {
  }

  /** Turn j of the log was played by Mover(j). */
  ghost predicate Alternating(log: seq<Ply>) {
    forall j :: 0 <= j < |log| ==> log[j].player == Mover(j)
  }

  /** No two consecutive turns among the first n of the log are passes. */
  ghost predicate NoDoublePass(log: seq<Ply>, n: int)
    requires n <= |log|
  {
    forall j :: 0 <= j < n - 1 ==> !(Passed(log[j]) && Passed(log[j + 1]))
  }

  /** The shape of run's log from turn i on: it extends the log so far,
      holds at most 120 turns, alternates between the players, holds no
      two passes in a row except as its last two turns, and a run that
      ends early without an error ends on two passes. */
  lemma {:induction false} TurnsLog(g: Game, i: nat, noMove: bool, tl0: real, tl1: real, m1: int, m2: int,
                                    o: Oracle, log: seq<Ply>)
    requires Playable(g, m1, m2) && g.player == Mover(i) && i <= NumMoves && |log| == i
    requires Alternating(log) && NoDoublePass(log, |log|) && (noMove <==> i > 0 && Passed(log[i - 1]))
    ensures LogShape(log, Turns(g, i, noMove, tl0, tl1, m1, m2, o, log))
    decreases NumMoves - i, 2
  {
    if i < NumMoves {
      var p := if g.player == 1 then 1 else -1;
      var r := Play(g, if p == 1 then m1 else m2, g.board, p, if p == 1 then tl0 else tl1,
                    o.clock(i), o.pick(i), o.elapsed(i));
      var t := AfterTurn(i, noMove, tl0, tl1, m1, m2, o, log, p, r);
      AfterCases(i, noMove, tl0, tl1, m1, m2, o, log, p, r, t);
      AfterLog(i, noMove, tl0, tl1, m1, m2, o, log, p, r, t);
    }
  }

  /** The log extends log, is at most 120 turns, alternates, has no
      double pass but at its end, and ends on one when cut short without
      an error. */
  ghost predicate LogShape(log: seq<Ply>, t: Trace) {
    log <= t.log && |t.log| <= NumMoves && Alternating(t.log) && NoDoublePass(t.log, |t.log| - 1) &&
    (t.error.None? && |t.log| < NumMoves ==>
       2 <= |t.log| && Passed(t.log[|t.log| - 2]) && Passed(t.log[|t.log| - 1]))
  }

  /** Adding the next player's turn keeps the log alternating and adds no
      double pass before the new turn. */
  lemma LogAppend(log: seq<Ply>, y: Ply)
    requires Alternating(log) && NoDoublePass(log, |log|) && y.player == Mover(|log|)
    ensures var log' := log + [y];
            log <= log' && Alternating(log') && NoDoublePass(log', |log|) && log'[|log|] == y &&
            (|log| > 0 ==> log'[|log| - 1] == log[|log| - 1])
  {
    var log' := log + [y];
    forall j | 0 <= j < |log'|
      ensures log'[j].player == Mover(j)
    {
      if j < |log| { assert log'[j] == log[j]; }
    }
  }

  /** A failed turn stops the run with the log so far. */
  lemma AfterFailed(i: nat, noMove: bool, tl0: real, tl1: real, m1: int, m2: int,
                    o: Oracle, log: seq<Ply>, p: int, r: (Turn, Game), t: Trace)
    requires Playable(r.1, m1, m2) && IsPlayer(r.1.player) && i < NumMoves && r.0.Failed?
    requires t == AfterTurn(i, noMove, tl0, tl1, m1, m2, o, log, p, r)
    ensures t == Trace(r.1, Some(r.0.err), log, tl0, tl1)
  {
  }

  /** A second pass in a row stops the run after logging the pass. */
  lemma AfterPassed(i: nat, noMove: bool, tl0: real, tl1: real, m1: int, m2: int,
                    o: Oracle, log: seq<Ply>, p: int, r: (Turn, Game), t: Trace)
    requires Playable(r.1, m1, m2) && IsPlayer(r.1.player) && i < NumMoves
    requires r.0.Took? && r.0.amount < 0.0 && noMove
    requires t == AfterTurn(i, noMove, tl0, tl1, m1, m2, o, log, p, r)
    ensures t == Trace(r.1, None, log + [Ply(p, r.0.amount)], tl0, tl1)
  {
  }

  /** Any other turn is logged and hands over to the opponent. */
  lemma AfterMoved(i: nat, noMove: bool, tl0: real, tl1: real, m1: int, m2: int,
                   o: Oracle, log: seq<Ply>, p: int, r: (Turn, Game), t: Trace)
    requires Playable(r.1, m1, m2) && IsPlayer(r.1.player) && i < NumMoves
    requires r.0.Took? && !(r.0.amount < 0.0 && noMove)
    requires t == AfterTurn(i, noMove, tl0, tl1, m1, m2, o, log, p, r)
    ensures var a := r.0.amount;
            t == Turns(r.1.(player := -r.1.player), i + 1, a < 0.0,
                  if a >= 0.0 && p == 1 then tl0 - a else tl0,
                  if a >= 0.0 && p != 1 then tl1 - a else tl1, m1, m2, o, log + [Ply(p, a)])
  {
  }

  /** A turn of the loop is the play of the player to move followed by
      what comes after it. */
  lemma TurnsUnfold(g: Game, i: nat, noMove: bool, tl0: real, tl1: real, m1: int, m2: int,
                    o: Oracle, log: seq<Ply>, p: int, mode: int, remain: real, r: (Turn, Game))
    requires Playable(g, m1, m2) && IsPlayer(g.player) && i < NumMoves && p == g.player
    requires mode == (if p == 1 then m1 else m2) && remain == (if p == 1 then tl0 else tl1)
    requires r == Play(g, mode, g.board, p, remain, o.clock(i), o.pick(i), o.elapsed(i))
    ensures Playable(r.1, m1, m2) && r.1.player == p
    ensures Turns(g, i, noMove, tl0, tl1, m1, m2, o, log) == AfterTurn(i, noMove, tl0, tl1, m1, m2, o, log, p, r)
  {
  }

  /** One turn of run, as RunTurns takes it: after the play r of the player
      to move, the run from turn i ends with the failed play's error, ends
      after a second pass in a row, or goes on with the opponent from turn
      i + 1 with the mover's clock charged. */
  lemma TurnStep(g: Game, i: nat, noMove: bool, tl0: real, tl1: real, m1: int, m2: int,
                 o: Oracle, log: seq<Ply>, p: int, mode: int, remain: real, r: (Turn, Game), t: Trace)
    requires Playable(g, m1, m2) && IsPlayer(g.player) && i < NumMoves && p == g.player
    requires mode == (if p == 1 then m1 else m2) && remain == (if p == 1 then tl0 else tl1)
    requires r == Play(g, mode, g.board, p, remain, o.clock(i), o.pick(i), o.elapsed(i))
    requires t == Turns(g, i, noMove, tl0, tl1, m1, m2, o, log)
    ensures r.0.Failed? ==> t.game == r.1 && t.error == Some(r.0.err)
    ensures r.0.Took? && r.0.amount < 0.0 && noMove ==> t.game == r.1 && t.error == None
  {
    TurnsUnfold(g, i, noMove, tl0, tl1, m1, m2, o, log, p, mode, remain, r);
    if r.0.Failed? {
      AfterFailed(i, noMove, tl0, tl1, m1, m2, o, log, p, r, t);
    } else if r.0.amount < 0.0 && noMove {
      AfterPassed(i, noMove, tl0, tl1, m1, m2, o, log, p, r, t);
    }
  }

  /** A turn that neither failed nor ended the run on a second pass hands
      turn i + 1 to the opponent g', with the mover's clock charged. */
  lemma TurnNext(g: Game, i: nat, noMove: bool, tl0: real, tl1: real, m1: int, m2: int,
                 o: Oracle, log: seq<Ply>, p: int, mode: int, remain: real, r: (Turn, Game), t: Trace,
                 g': Game, a: real, l0: real, l1: real)
    requires Playable(g, m1, m2) && IsPlayer(g.player) && i < NumMoves && p == g.player
    requires mode == (if p == 1 then m1 else m2) && remain == (if p == 1 then tl0 else tl1)
    requires r == Play(g, mode, g.board, p, remain, o.clock(i), o.pick(i), o.elapsed(i))
    requires t == Turns(g, i, noMove, tl0, tl1, m1, m2, o, log)
    requires r.0 == Took(a) && !(a < 0.0 && noMove) && g' == r.1.(player := -p)
    requires l0 == (if a >= 0.0 && p == 1 then tl0 - a else tl0)
    requires l1 == (if a >= 0.0 && p != 1 then tl1 - a else tl1)
    ensures Playable(g', m1, m2) && IsPlayer(g'.player)
    ensures t == Turns(g', i + 1, a < 0.0, l0, l1, m1, m2, o, log + [Ply(p, a)])
  {
    TurnsUnfold(g, i, noMove, tl0, tl1, m1, m2, o, log, p, mode, remain, r);
    MovedNext(i, noMove, tl0, tl1, m1, m2, o, log, p, r, t, g', a, l0, l1);
  }

  /** TurnNext once the turn is unfolded into what comes after the play. */
  lemma MovedNext(i: nat, noMove: bool, tl0: real, tl1: real, m1: int, m2: int,
                  o: Oracle, log: seq<Ply>, p: int, r: (Turn, Game), t: Trace, g': Game, a: real, l0: real, l1: real)
    requires Playable(r.1, m1, m2) && r.1.player == p && IsPlayer(p) && i < NumMoves
    requires t == AfterTurn(i, noMove, tl0, tl1, m1, m2, o, log, p, r)
    requires r.0 == Took(a) && !(a < 0.0 && noMove) && g' == r.1.(player := -p)
    requires l0 == (if a >= 0.0 && p == 1 then tl0 - a else tl0)
    requires l1 == (if a >= 0.0 && p != 1 then tl1 - a else tl1)
    ensures Playable(g', m1, m2) && IsPlayer(g'.player)
    ensures t == Turns(g', i + 1, a < 0.0, l0, l1, m1, m2, o, log + [Ply(p, a)])
  {
    AfterMoved(i, noMove, tl0, tl1, m1, m2, o, log, p, r, t);
  }

  /** A log that extends log' extends any prefix of it. */
  lemma ShapePrefix(log: seq<Ply>, log': seq<Ply>, t: Trace)
    requires LogShape(log', t) && log <= log'
    ensures LogShape(log, t)
  {
  }

  /** A run stopped by an error keeps the shape of its log so far. */
  lemma ShapeFailed(log: seq<Ply>, t: Trace)
    requires t.error.Some? && t.log == log && |log| < NumMoves && Alternating(log) && NoDoublePass(log, |log|)
    ensures LogShape(log, t)
  {
  }

  /** A run stopped by a second pass in a row ends on two passes. */
  lemma ShapeEnded(log: seq<Ply>, y: Ply, t: Trace)
    requires |log| < NumMoves && Alternating(log) && NoDoublePass(log, |log|) && y.player == Mover(|log|)
    requires 0 < |log| && Passed(log[|log| - 1]) && Passed(y) && t.log == log + [y]
    ensures LogShape(log, t)
  {
    LogAppend(log, y);
    var n := |t.log|;
    assert n == |log| + 1 && t.log[n - 2] == log[|log| - 1] && t.log[n - 1] == y;
  }

  /** The three ways a turn can end, each as the trace it leaves. */
  lemma AfterCases(i: nat, noMove: bool, tl0: real, tl1: real, m1: int, m2: int,
                   o: Oracle, log: seq<Ply>, p: int, r: (Turn, Game), t: Trace)
    requires Playable(r.1, m1, m2) && IsPlayer(r.1.player) && i < NumMoves
    requires t == AfterTurn(i, noMove, tl0, tl1, m1, m2, o, log, p, r)
    ensures r.0.Failed? ==> t == Trace(r.1, Some(r.0.err), log, tl0, tl1)
    ensures r.0.Took? && r.0.amount < 0.0 && noMove ==> t == Trace(r.1, None, log + [Ply(p, r.0.amount)], tl0, tl1)
    ensures r.0.Took? && !(r.0.amount < 0.0 && noMove) ==>
              var a := r.0.amount;
              t == Turns(r.1.(player := -r.1.player), i + 1, a < 0.0,
                         if a >= 0.0 && p == 1 then tl0 - a else tl0,
                         if a >= 0.0 && p != 1 then tl1 - a else tl1, m1, m2, o, log + [Ply(p, a)])
  {
    if r.0.Failed? {
      AfterFailed(i, noMove, tl0, tl1, m1, m2, o, log, p, r, t);
    } else if r.0.amount < 0.0 && noMove {
      AfterPassed(i, noMove, tl0, tl1, m1, m2, o, log, p, r, t);
    } else {
      AfterMoved(i, noMove, tl0, tl1, m1, m2, o, log, p, r, t);
    }
  }

  lemma {:induction false} AfterLog(i: nat, noMove: bool, tl0: real, tl1: real, m1: int, m2: int,
                                    o: Oracle, log: seq<Ply>, p: int, r: (Turn, Game), t: Trace)
    requires Playable(r.1, m1, m2) && r.1.player == p && p == Mover(i) && i < NumMoves && |log| == i
    requires Alternating(log) && NoDoublePass(log, |log|) && (noMove <==> i > 0 && Passed(log[i - 1]))
    requires r.0.Failed? ==> t == Trace(r.1, Some(r.0.err), log, tl0, tl1)
    requires r.0.Took? && r.0.amount < 0.0 && noMove ==> t == Trace(r.1, None, log + [Ply(p, r.0.amount)], tl0, tl1)
    requires r.0.Took? && !(r.0.amount < 0.0 && noMove) ==>
               var a := r.0.amount;
               t == Turns(r.1.(player := -r.1.player), i + 1, a < 0.0,
                          if a >= 0.0 && p == 1 then tl0 - a else tl0,
                          if a >= 0.0 && p != 1 then tl1 - a else tl1, m1, m2, o, log + [Ply(p, a)])
    ensures LogShape(log, t)
    decreases NumMoves - i, 1
  {
    if r.0.Failed? {
      ShapeFailed(log, t);
    } else if r.0.amount < 0.0 && noMove {
      ShapeEnded(log, Ply(p, r.0.amount), t);
    } else {
      NextLog(r.1.(player := -r.1.player), i, noMove, tl0, tl1, m1, m2, o, log, p, r.0.amount, t);
    }
  }

  lemma {:induction false} NextLog(g: Game, i: nat, noMove: bool, tl0: real, tl1: real, m1: int, m2: int,
                                   o: Oracle, log: seq<Ply>, p: int, a: real, t: Trace)
    requires Playable(g, m1, m2) && g.player == -p && p == Mover(i) && i < NumMoves && |log| == i
    requires Alternating(log) && NoDoublePass(log, |log|) && (noMove <==> i > 0 && Passed(log[i - 1]))
    requires !(a < 0.0 && noMove)
    requires t == Turns(g, i + 1, a < 0.0,
                        if a >= 0.0 && p == 1 then tl0 - a else tl0,
                        if a >= 0.0 && p != 1 then tl1 - a else tl1, m1, m2, o, log + [Ply(p, a)])
    ensures LogShape(log, t)
    decreases NumMoves - i, 0
  {
    var y := Ply(p, a);
    var log' := log + [y];
    LogAppend(log, y);
    MoverNext(i);
    TurnsLog(g, i + 1, a < 0.0, if a >= 0.0 && p == 1 then tl0 - a else tl0,
             if a >= 0.0 && p != 1 then tl1 - a else tl1, m1, m2, o, log');
    ShapePrefix(log, log', t);
  }

  /** The time player p has spent on its moves in a log (passes cost
      nothing). */
  function Spent(log: seq<Ply>, p: int): real {
    if log == [] then 0.0
    else
      var y := log[|log| - 1];
      Spent(log[..|log| - 1], p) + if y.player == p && y.amount >= 0.0 then y.amount else 0.0
  }

  /** Every turn in the log returned -1 or a time of at most 3 s. */
  ghost predicate Timed(log: seq<Ply>) {
    forall j :: 0 <= j < |log| ==> log[j].amount == -1.0 || 0.0 <= log[j].amount <= 3.0
  }

  /** Both clocks agree with the log: 60 s less each player's time spent,
      never below zero, and every turn passed or took at most 3 s. */
  ghost predicate Clocks(log: seq<Ply>, tl0: real, tl1: real) {
    Timed(log) && tl0 == 60.0 - Spent(log, 1) && tl1 == 60.0 - Spent(log, -1) && tl0 >= 0.0 && tl1 >= 0.0
  }

  /** The clocks of run from turn i on: each player's time left is 60 s
      less what it spent on its moves, and never goes below zero. */
  lemma {:induction false} TurnsClock(g: Game, i: nat, noMove: bool, tl0: real, tl1: real, m1: int, m2: int,
                                      o: Oracle, log: seq<Ply>)
    requires Playable(g, m1, m2) && IsPlayer(g.player) && Clocks(log, tl0, tl1)
    ensures var t := Turns(g, i, noMove, tl0, tl1, m1, m2, o, log);
            Clocks(t.log, t.timeLeft0, t.timeLeft1)
    decreases NumMoves - i, 1
  {
    if i < NumMoves {
      var p := if g.player == 1 then 1 else -1;
      var id, remain := if p == 1 then m1 else m2, if p == 1 then tl0 else tl1;
      var r := Play(g, id, g.board, p, remain, o.clock(i), o.pick(i), o.elapsed(i));
      PlayTime(g, id, g.board, p, remain, o.clock(i), o.pick(i), o.elapsed(i));
      var t := AfterTurn(i, noMove, tl0, tl1, m1, m2, o, log, p, r);
      AfterCases(i, noMove, tl0, tl1, m1, m2, o, log, p, r, t);
      MovedClock(i, noMove, tl0, tl1, m1, m2, o, log, p, r, t);
      AfterClock(noMove, tl0, tl1, log, p, r, t);
    }
  }

  /** A turn of player p that passed or took a at most its time left
      keeps the clocks in step with the log. */
  lemma ClocksAppend(log: seq<Ply>, tl0: real, tl1: real, p: int, a: real)
    requires Clocks(log, tl0, tl1) && IsPlayer(p)
    requires a == -1.0 || (0.0 <= a <= 3.0 && a <= if p == 1 then tl0 else tl1)
    ensures Clocks(log + [Ply(p, a)], if a >= 0.0 && p == 1 then tl0 - a else tl0,
                   if a >= 0.0 && p != 1 then tl1 - a else tl1)
  {
    var log' := log + [Ply(p, a)];
    assert log'[..|log|] == log;
    assert forall j :: 0 <= j < |log| ==> log'[j] == log[j];
  }

  /** The clocks of a run that goes on after a move or a single pass. */
  lemma {:induction false} MovedClock(i: nat, noMove: bool, tl0: real, tl1: real, m1: int, m2: int,
                                      o: Oracle, log: seq<Ply>, p: int, r: (Turn, Game), t: Trace)
    requires Playable(r.1, m1, m2) && IsPlayer(r.1.player) && IsPlayer(p) && i < NumMoves && Clocks(log, tl0, tl1)
    requires r.0.Took? ==> r.0.amount == -1.0 || (0.0 <= r.0.amount <= 3.0 && r.0.amount <= if p == 1 then tl0 else tl1)
    requires r.0.Took? && !(r.0.amount < 0.0 && noMove) ==>
               var a := r.0.amount;
               t == Turns(r.1.(player := -r.1.player), i + 1, a < 0.0,
                          if a >= 0.0 && p == 1 then tl0 - a else tl0,
                          if a >= 0.0 && p != 1 then tl1 - a else tl1, m1, m2, o, log + [Ply(p, a)])
    ensures r.0.Took? && !(r.0.amount < 0.0 && noMove) ==> Clocks(t.log, t.timeLeft0, t.timeLeft1)
    decreases NumMoves - i, 0
  {
    if r.0.Took? && !(r.0.amount < 0.0 && noMove) {
      var a := r.0.amount;
      ClocksAppend(log, tl0, tl1, p, a);
      NextClock(r.1.(player := -r.1.player), i + 1, a < 0.0,
                if a >= 0.0 && p == 1 then tl0 - a else tl0,
                if a >= 0.0 && p != 1 then tl1 - a else tl1, m1, m2, o, log + [Ply(p, a)], t);
    }
  }

  /** The clocks of the rest of a run, as a fact about its trace t. */
  lemma {:induction false} NextClock(g: Game, i: nat, noMove: bool, tl0: real, tl1: real, m1: int, m2: int,
                                     o: Oracle, log: seq<Ply>, t: Trace)
    requires Playable(g, m1, m2) && IsPlayer(g.player) && Clocks(log, tl0, tl1)
    requires t == Turns(g, i, noMove, tl0, tl1, m1, m2, o, log)
    ensures Clocks(t.log, t.timeLeft0, t.timeLeft1)
    decreases NumMoves - i, 2
  {
    TurnsClock(g, i, noMove, tl0, tl1, m1, m2, o, log);
  }

  /** The clocks a turn leaves, whichever way it ends. */
  lemma AfterClock(noMove: bool, tl0: real, tl1: real, log: seq<Ply>, p: int, r: (Turn, Game), t: Trace)
    requires IsPlayer(p) && Clocks(log, tl0, tl1)
    requires r.0.Took? ==> r.0.amount == -1.0 || (0.0 <= r.0.amount <= 3.0 && r.0.amount <= if p == 1 then tl0 else tl1)
    requires r.0.Failed? ==> t.log == log && t.timeLeft0 == tl0 && t.timeLeft1 == tl1
    requires r.0.Took? && r.0.amount < 0.0 && noMove ==>
               t.log == log + [Ply(p, r.0.amount)] && t.timeLeft0 == tl0 && t.timeLeft1 == tl1
    requires r.0.Took? && !(r.0.amount < 0.0 && noMove) ==> Clocks(t.log, t.timeLeft0, t.timeLeft1)
    ensures Clocks(t.log, t.timeLeft0, t.timeLeft1)
  {
    if r.0.Took? && r.0.amount < 0.0 && noMove {
      ClocksAppend(log, tl0, tl1, p, r.0.amount);
    }
  }

  /** Every turn of run keeps the counter's total equal to the number of
      tiles on the board. */
  lemma {:induction false} TurnsTally(g: Game, i: nat, noMove: bool, tl0: real, tl1: real, m1: int, m2: int,
                                      o: Oracle, log: seq<Ply>)
    requires Playable(g, m1, m2) && IsPlayer(g.player) && Tally(g)
    ensures Tally(Turns(g, i, noMove, tl0, tl1, m1, m2, o, log).game)
    decreases NumMoves - i, 1
  {
    if i < NumMoves {
      var p := if g.player == 1 then 1 else -1;
      var id, remain := if p == 1 then m1 else m2, if p == 1 then tl0 else tl1;
      var r := Play(g, id, g.board, p, remain, o.clock(i), o.pick(i), o.elapsed(i));
      PlayTally(g, id, g.board, p, remain, o.clock(i), o.pick(i), o.elapsed(i));
      var t := AfterTurn(i, noMove, tl0, tl1, m1, m2, o, log, p, r);
      AfterCases(i, noMove, tl0, tl1, m1, m2, o, log, p, r, t);
      AfterTally(i, noMove, tl0, tl1, m1, m2, o, log, p, r, t);
    }
  }

  lemma {:induction false} AfterTally(i: nat, noMove: bool, tl0: real, tl1: real, m1: int, m2: int,
                                      o: Oracle, log: seq<Ply>, p: int, r: (Turn, Game), t: Trace)
    requires Playable(r.1, m1, m2) && IsPlayer(r.1.player) && i < NumMoves && Tally(r.1)
    requires r.0.Failed? ==> t == Trace(r.1, Some(r.0.err), log, tl0, tl1)
    requires r.0.Took? && r.0.amount < 0.0 && noMove ==> t == Trace(r.1, None, log + [Ply(p, r.0.amount)], tl0, tl1)
    requires r.0.Took? && !(r.0.amount < 0.0 && noMove) ==>
               var a := r.0.amount;
               t == Turns(r.1.(player := -r.1.player), i + 1, a < 0.0,
                          if a >= 0.0 && p == 1 then tl0 - a else tl0,
                          if a >= 0.0 && p != 1 then tl1 - a else tl1, m1, m2, o, log + [Ply(p, a)])
    ensures Tally(t.game)
    decreases NumMoves - i, 0
  {
    if r.0.Took? && !(r.0.amount < 0.0 && noMove) {
      var a := r.0.amount;
      TurnsTally(r.1.(player := -r.1.player), i + 1, a < 0.0,
                 if a >= 0.0 && p == 1 then tl0 - a else tl0,
                 if a >= 0.0 && p != 1 then tl1 - a else tl1, m1, m2, o, log + [Ply(p, a)]);
    }
  }

  /** With modes 0-3 on both sides run raises no ValueError, and a
      TypeError only when some side plays mode 3. */
  lemma {:induction false} TurnsErrors(g: Game, i: nat, noMove: bool, tl0: real, tl1: real, m1: int, m2: int,
                                       o: Oracle, log: seq<Ply>)
    requires Playable(g, m1, m2) && IsPlayer(g.player) && 0 <= m1 <= 3 && 0 <= m2 <= 3
    ensures ModeErrors(Turns(g, i, noMove, tl0, tl1, m1, m2, o, log).error, m1, m2)
    decreases NumMoves - i, 1
  {
    if i < NumMoves {
      var p := if g.player == 1 then 1 else -1;
      var id, remain := if p == 1 then m1 else m2, if p == 1 then tl0 else tl1;
      var r := Play(g, id, g.board, p, remain, o.clock(i), o.pick(i), o.elapsed(i));
      PlayInGame(g, id, remain, o.clock(i), o.pick(i), o.elapsed(i));
      var t := AfterTurn(i, noMove, tl0, tl1, m1, m2, o, log, p, r);
      AfterCases(i, noMove, tl0, tl1, m1, m2, o, log, p, r, t);
      MovedErrors(i, noMove, tl0, tl1, m1, m2, o, log, p, r, t);
      AfterErrors(noMove, m1, m2, p, r, t);
    }
  }

  /** The errors a run with modes m1 and m2 in 0-3 can end on. */
  ghost predicate ModeErrors(e: Option<Error>, m1: int, m2: int) {
    e != Some(ValueError) && (e == Some(TypeError) ==> m1 == 3 || m2 == 3)
  }

  /** The error of the rest of a run, as a fact about its trace t. */
  lemma {:induction false} NextErrors(g: Game, i: nat, noMove: bool, tl0: real, tl1: real, m1: int, m2: int,
                                      o: Oracle, log: seq<Ply>, t: Trace)
    requires Playable(g, m1, m2) && IsPlayer(g.player) && 0 <= m1 <= 3 && 0 <= m2 <= 3
    requires t == Turns(g, i, noMove, tl0, tl1, m1, m2, o, log)
    ensures ModeErrors(t.error, m1, m2)
    decreases NumMoves - i, 2
  {
    TurnsErrors(g, i, noMove, tl0, tl1, m1, m2, o, log);
  }

  /** The error of a run that goes on after a move or a single pass. */
  lemma {:induction false} MovedErrors(i: nat, noMove: bool, tl0: real, tl1: real, m1: int, m2: int,
                                       o: Oracle, log: seq<Ply>, p: int, r: (Turn, Game), t: Trace)
    requires Playable(r.1, m1, m2) && IsPlayer(r.1.player) && i < NumMoves && 0 <= m1 <= 3 && 0 <= m2 <= 3
    requires r.0.Took? && !(r.0.amount < 0.0 && noMove) ==>
               var a := r.0.amount;
               t == Turns(r.1.(player := -r.1.player), i + 1, a < 0.0,
                          if a >= 0.0 && p == 1 then tl0 - a else tl0,
                          if a >= 0.0 && p != 1 then tl1 - a else tl1, m1, m2, o, log + [Ply(p, a)])
    ensures r.0.Took? && !(r.0.amount < 0.0 && noMove) ==> ModeErrors(t.error, m1, m2)
    decreases NumMoves - i, 0
  {
    if r.0.Took? && !(r.0.amount < 0.0 && noMove) {
      var a := r.0.amount;
      NextErrors(r.1.(player := -r.1.player), i + 1, a < 0.0,
                 if a >= 0.0 && p == 1 then tl0 - a else tl0,
                 if a >= 0.0 && p != 1 then tl1 - a else tl1, m1, m2, o, log + [Ply(p, a)], t);
    }
  }

  /** The error a turn leaves, whichever way it ends. */
  lemma AfterErrors(noMove: bool, m1: int, m2: int, p: int, r: (Turn, Game), t: Trace)
    requires r.0.Failed? ==> r.0.err == TimeoutError || ((if p == 1 then m1 else m2) == 3 && r.0.err == TypeError)
    requires r.0.Failed? ==> t.error == Some(r.0.err)
    requires r.0.Took? && r.0.amount < 0.0 && noMove ==> t.error == None
    requires r.0.Took? && !(r.0.amount < 0.0 && noMove) ==> ModeErrors(t.error, m1, m2)
    ensures ModeErrors(t.error, m1, m2)
  {
  }

  /** run's log: at most 120 turns, alternating from player 1, no two
      passes in a row except the last two, and an early end without an
      error comes after two passes in a row. */
  lemma RunLog(g: Game, m1: int, m2: int, o: Oracle)
    requires Playable(g, m1, m2)
    ensures var t := RunSpec(g, m1, m2, o);
            |t.log| <= NumMoves && Alternating(t.log) && NoDoublePass(t.log, |t.log| - 1) &&
            (t.error.None? && |t.log| < NumMoves ==>
               2 <= |t.log| && Passed(t.log[|t.log| - 2]) && Passed(t.log[|t.log| - 1]))
  {
    if IsPlayer(g.player) {
      TurnsLog(g.(player := 1), 0, false, 60.0, 60.0, m1, m2, o, []);
    }
  }

  /** run's clocks: every turn took at most 3 s or passed, and each player
      ends with 60 s less its moves' time left, which is not negative. */
  lemma RunClock(g: Game, m1: int, m2: int, o: Oracle)
    requires Playable(g, m1, m2)
    ensures var t := RunSpec(g, m1, m2, o);
            Timed(t.log) && t.timeLeft0 == 60.0 - Spent(t.log, 1) && t.timeLeft1 == 60.0 - Spent(t.log, -1) &&
            t.timeLeft0 >= 0.0 && t.timeLeft1 >= 0.0
  {
    if IsPlayer(g.player) {
      TurnsClock(g.(player := 1), 0, false, 60.0, 60.0, m1, m2, o, []);
    }
  }

  /** run keeps the counter's total equal to the number of tiles. */
  lemma RunTally(g: Game, m1: int, m2: int, o: Oracle)
    requires Playable(g, m1, m2) && Tally(g)
    ensures Tally(RunSpec(g, m1, m2, o).game)
  {
    if IsPlayer(g.player) {
      TurnsTally(g.(player := 1), 0, false, 60.0, 60.0, m1, m2, o, []);
    }
  }

  /** run raises a ValueError exactly for a player other than 1 or -1 when
      both modes are 0-3, and a TypeError only when some side plays mode 3. */
  lemma RunErrors(g: Game, m1: int, m2: int, o: Oracle)
    requires Playable(g, m1, m2) && 0 <= m1 <= 3 && 0 <= m2 <= 3
    ensures var t := RunSpec(g, m1, m2, o);
            (t.error == Some(ValueError) <==> !IsPlayer(g.player)) &&
            (t.error == Some(TypeError) ==> m1 == 3 || m2 == 3)
  {
    if IsPlayer(g.player) {
      TurnsErrors(g.(player := 1), 0, false, 60.0, 60.0, m1, m2, o, []);
    }
  }

  /** The verdict run prints agrees with evaluate_final: the agent won
      exactly when the final score favours the agent's colour. */
  lemma AnnounceWinner(t: Trace, isPlayer1Agent: bool)
    requires t.error.None? && IsTiles(t.game.board)
    ensures var v := Announce(t, isPlayer1Agent);
            v.Final? &&
            (v.agentWon <==> if isPlayer1Agent then FinalScore(t.game.board) > 0 else FinalScore(t.game.board) < 0)
  {
    FinalScoreWinner(t.game.board);
  }

  class VietnameseChess {
    var size: int
    var board: Board
    var currentPlayer: int
    var numTiles: seq<int>

    ghost predicate Valid()
      reads this
    {
      |board| == Side(size) && IsTiles(board) && |numTiles| == 2
    }

    function State(): Game
      reads this
    {
      Game(board, currentPlayer, numTiles)
    }

    /** __init__: an empty size x size board, player 1 to move, counter [2, 2]. */
    constructor(size: int)
      ensures Valid() && this.size == size
      ensures board == Zeros(Side(size)) && currentPlayer == 1 && numTiles == [2, 2]
    {
      this.size := size;
      board := Zeros(Side(size));
      currentPlayer := 1;
      numTiles := [2, 2];
    }

    /** init_board: colours the four centre cells; a no-op below size 2. */
    method InitBoard()
      requires Valid()
      modifies this
      ensures Valid() && size == old(size) && currentPlayer == old(currentPlayer) && numTiles == old(numTiles)
      ensures size < 2 ==> board == old(board)
      ensures size >= 2 ==> board == Seeded(old(board), Squares(size), 4)
    {
      if size < 2 {
        return;
      }
      var coord1 := Trunc(size as real / 2.0 - 1.0);
      var coord2 := Trunc(size as real / 2.0);
      var initialSquares := [Coord(coord1, coord2), Coord(coord1, coord1),
                             Coord(coord2, coord1), Coord(coord2, coord2)];
      SquaresCentre(size);
      for i := 0 to |initialSquares|
        invariant Valid() && size == old(size) && currentPlayer == old(currentPlayer) && numTiles == old(numTiles)
        invariant board == Seeded(old(board), initialSquares, i)
      {
        var color := i % 2;
        var row := initialSquares[i].row;
        var col := initialSquares[i].col;
        SeedStep(old(board), initialSquares, i, board);
        if color == 0 {
          board := board[row := board[row][col := 1]];
        } else {
          board := board[row := board[row][col := -1]];
        }
      }
    }

    /** move_tile: a legal move places the tile, bumps the counter slot of
        the mover (index -1 is index 1) and flips; any other location
        changes nothing. */
    method MoveTile(moveLocation: Coord)
      requires Valid()
      modifies this
      ensures Valid() && size == old(size) && currentPlayer == old(currentPlayer)
      ensures IsLegalAction(old(board), moveLocation, currentPlayer) ==>
                board == Moved(old(board), moveLocation, currentPlayer) &&
                numTiles == old(numTiles)[1 := old(numTiles)[1] + 1]
      ensures !IsLegalAction(old(board), moveLocation, currentPlayer) ==>
                board == old(board) && numTiles == old(numTiles)
    {
      if IsLegalAction(board, moveLocation, currentPlayer) {
        ghost var b := board;
        board := board[moveLocation.row := board[moveLocation.row][moveLocation.col := currentPlayer]];
        numTiles := numTiles[Slot(currentPlayer) := numTiles[Slot(currentPlayer)] + 1];
        FlipTiles(b, moveLocation);
        MovedShape(b, moveLocation, currentPlayer);
      }
    }

    /** flip_tiles: for each direction with a flippable line, walks the ray
        turning every cell that is not the mover's into the mover's, and
        moves one unit of the counter from the opponent's slot to the
        mover's (both are slot 1). `b` is the board before the placement.
        The walk works on a copy of the board and counter that is stored
        back at the end; nothing reads the fields in between. */
    method FlipTiles(ghost b: Board, moveLocation: Coord)
      requires IsTiles(b) && InBoard(b, moveLocation) && IsPlayer(currentPlayer) && |numTiles| == 2
      requires board == Put(b, moveLocation, currentPlayer)
      modifies this
      ensures board == Moved(b, moveLocation, old(currentPlayer))
      ensures numTiles == old(numTiles) && currentPlayer == old(currentPlayer) && size == old(size)
    {
      MoveDirsAreDirs();
      PutStartsMove(b, moveLocation, currentPlayer);
      var o, p := moveLocation, currentPlayer;
      var cells, tiles := board, numTiles;
      for k := 0 to |MoveDirs|
        invariant unchanged(this) && tiles == old(numTiles)
        invariant IsMovedUpTo(b, o, p, k, cells)
      {
        var direction := MoveDirs[k];
        RayUntouched(b, o, p, k, cells);
        var flip := HasTileToFlip(cells, o, direction, p);
        if flip {
          cells, tiles := FlipRay(b, o, p, k, cells, tiles);
        }
      }
      MovedIs(b, o, p, cells);
      board, numTiles := cells, tiles;
    }

    /** The inner loop of flip_tiles along MOVE_DIRS[k], which holds a
        flippable line: steps along the ray with a counter, turning each
        cell that is not the mover's into the mover's and moving one unit
        of the counter, until it meets the mover's tile. */
    static method FlipRay(ghost b: Board, o: Coord, p: int, k: nat, cells0: Board, tiles0: seq<int>)
      returns (cells: Board, tiles: seq<int>)
      requires IsTiles(b) && InBoard(b, o) && IsPlayer(p) && |tiles0| == 2 && k < |MoveDirs|
      requires HasFlip(b, o, MoveDirs[k], p) && IsMovedUpTo(b, o, p, k, cells0)
      ensures IsMovedUpTo(b, o, p, k + 1, cells) && tiles == tiles0
    {
      MoveDirsAreDirs();
      var direction := MoveDirs[k];
      cells, tiles := cells0, tiles0;
      ghost var K := Scan(b, o, direction, p, 1).value;
      WalkStart(b, o, p, k, cells);
      var count := 1;
      while true
        invariant tiles == tiles0 && FlipWalk(b, o, p, k, K, count, cells)
        decreases K - count
      {
        var row := Step(o, direction, count).row;
        var col := Step(o, direction, count).col;
        FlipGuard(b, o, p, k, K, count, cells);
        if cells[row][col] != p {
          FlipRunStep(b, o, p, k, K, count, cells);
          cells := cells[row := cells[row][col := p]];
          tiles := Transfer(tiles, p);
          count := count + 1;
        } else {
          assert !IsCell(b, Step(o, direction, count), p * -1);
          break;
        }
      }
      RunDoneFinish(b, o, p, k, K, count, cells);
    }

    /** The counter update of flip_tiles' inner loop: one unit to slot p,
        one unit from slot p * -1. In a two-element list both indices name
        slot 1, so the two updates cancel. */
    static method Transfer(tiles0: seq<int>, p: int) returns (tiles: seq<int>)
      requires |tiles0| == 2 && IsPlayer(p)
      ensures tiles == tiles0
    {
      assert Slot(p) == 1 && Slot(p * -1) == 1;
      tiles := tiles0[Slot(p) := tiles0[Slot(p)] + 1];
      tiles := tiles[Slot(p * -1) := tiles[Slot(p * -1)] - 1];
    }

    /** has_legal_action: scans the board row by row for a legal cell. */
    method HasLegalAction() returns (r: bool)
      requires Valid()
      ensures r <==> LegalMoves(board, currentPlayer) != []
    {
      LegalMovesSpec(board, currentPlayer);
      for row := 0 to Side(size)
        invariant forall m :: IsLegalAction(board, m, currentPlayer) ==> m.row >= row
      {
        for col := 0 to Side(size)
          invariant forall m :: IsLegalAction(board, m, currentPlayer) ==> m.row > row || (m.row == row && m.col >= col)
        {
          if IsLegalAction(board, Coord(row, col), currentPlayer) {
            return true;
          }
        }
      }
      FirstLegal(board, currentPlayer);
      return false;
    }

    /** count_scores: the number of player 1 tiles and of player -1 tiles;
        on a square board they take at most every cell. */
    static method CountScores(board: Board) returns (count1: int, countMinus1: int)
      ensures count1 == Count(board, 1) && countMinus1 == Count(board, -1)
      ensures IsSquare(board) ==> count1 + countMinus1 <= |board| * |board|
    {
      count1 := 0;
      countMinus1 := 0;
      for i := 0 to |board|
        invariant count1 == Count(board[..i], 1) && countMinus1 == Count(board[..i], -1)
      {
        var row := board[i];
        for j := 0 to |row|
          invariant count1 == Count(board[..i], 1) + CountRow(row[..j], 1)
          invariant countMinus1 == Count(board[..i], -1) + CountRow(row[..j], -1)
        {
          CountRowNext(row, j, 1);
          CountRowNext(row, j, -1);
          var num := row[j];
          if num == 1 {
            count1 := count1 + 1;
          } else if num == -1 {
            countMinus1 := countMinus1 + 1;
          }
        }
        assert row[..|row|] == row;
        CountNext(board, i, 1);
        CountNext(board, i, -1);
      }
      assert board[..|board|] == board;
      if IsSquare(board) {
        CountPair(board, 1, -1);
      }
    }

    /** select_move_location. `clock` is what minimax's clock reads and
        `pick` the index random.choice draws. */
    static method SelectMoveLocation(evaluationMethod: int, currentState: Board, playerToMove: int,
                                     remainTime: real, clock: Clock, pick: nat) returns (r: Choice)
      requires Supported(currentState, evaluationMethod)
      ensures r == Select(evaluationMethod, currentState, playerToMove, remainTime, clock, pick)
    {
      var timeLimit := 2.8;
      if remainTime < 3.0 {
        timeLimit := 0.5;
      }
      if evaluationMethod == 0 {
        var moves := GetLegalMoves(currentState, playerToMove);
        if |moves| > 0 {
          return Picked(Some(moves[pick % |moves|]));
        } else {
          return Picked(None);
        }
      }
      var evaluateFunc: Eval;
      if evaluationMethod == 1 {
        evaluateFunc := SimpleTableEval;
      } else if evaluationMethod == 2 {
        evaluateFunc := GoodBadEval;
      } else if evaluationMethod == 3 {
        evaluateFunc := CornerStandIn;
      } else {
        return Refused(ValueError);
      }
      assert evaluateFunc == Evaluator(evaluationMethod);
      var moveLocation, value, spare, cut := Minimax(currentState, playerToMove, timeLimit, NegInf, PosInf,
                                                     evaluateFunc, false, clock);
      if evaluationMethod == 3 && cut {
        return Refused(TypeError);
      }
      return Picked(moveLocation);
    }

    /** playing_turn: `clock`, `pick` and `elapsed` stand for the timer
        readings and the random draw of this turn. */
    method PlayingTurn(evaluationMethod: int, curState: Board, playerToMove: int, remainTime: real,
                       clock: Clock, pick: nat, elapsed: Duration) returns (r: Turn)
      requires Valid() && Supported(curState, evaluationMethod)
      modifies this
      ensures Valid() && size == old(size)
      ensures (r, State()) == Play(old(State()), evaluationMethod, curState, playerToMove, remainTime,
                                   clock, pick, elapsed)
    {
      ghost var g := State();
      var timeAmount := -1.0;
      var legal := HasLegalAction();
      if legal {
        var choice := SelectMoveLocation(evaluationMethod, curState, playerToMove, remainTime, clock, pick);
        assert Play(g, evaluationMethod, curState, playerToMove, remainTime, clock, pick, elapsed)
            == PlayWith(g, choice, remainTime, elapsed);
        if choice.Refused? {
          return Failed(choice.err);
        }
        timeAmount := elapsed;
        if timeAmount > 3.0 {
          return Failed(TimeoutError);
        }
        if timeAmount > remainTime {
          return Failed(TimeoutError);
        }
        if choice.loc.None? {
          return Failed(TypeError);
        }
        MoveTile(choice.loc.value);
      }
      return Took(timeAmount);
    }

    /** run, with the oracle supplying each turn's timer readings and
        random draw. */
    method Run(player1Mode: int, player2Mode: int, isPlayer1Agent: bool, o: Oracle) returns (r: Report)
      requires Valid() && Playable(State(), player1Mode, player2Mode)
      modifies this
      ensures Valid()
      ensures var t := RunSpec(old(State()), player1Mode, player2Mode, o);
              State() == t.game && r == Announce(t, isPlayer1Agent)
    {
      if currentPlayer != -1 && currentPlayer != 1 {
        return Aborted(ValueError);
      }
      currentPlayer := 1;
      var err := RunTurns(0, false, 60.0, 60.0, player1Mode, player2Mode, o, [],
                          Turns(State(), 0, false, 60.0, 60.0, player1Mode, player2Mode, o, []));
      if err.Some? {
        return Aborted(err.value);
      }
      var player1, player2 := CountScores(board);
      var agentScore, randScore;
      if isPlayer1Agent {
        agentScore, randScore := player1, player2;
      } else {
        agentScore, randScore := player2, player1;
      }
      return Final(agentScore, randScore, agentScore > randScore);
    }

    /** The loop of run from turn i on, as a recursive method: a pass after
        a pass breaks out, an error propagates, and every other turn flips
        the player and goes on to turn i + 1. */
    method RunTurns(i: nat, noMove: bool, timeLeft0: real, timeLeft1: real,
                    player1Mode: int, player2Mode: int, o: Oracle, ghost log: seq<Ply>, ghost t: Trace)
      returns (err: Option<Error>)
      requires Valid() && Playable(State(), player1Mode, player2Mode) && IsPlayer(currentPlayer)
      requires t == Turns(State(), i, noMove, timeLeft0, timeLeft1, player1Mode, player2Mode, o, log)
      modifies this
      ensures Valid() && State() == t.game && err == t.error
      decreases NumMoves - i
    {
      if i >= NumMoves {
        return None;
      }
      var player := if currentPlayer == 1 then 1 else -1;
      var mode := if player == 1 then player1Mode else player2Mode;
      var remain := if player == 1 then timeLeft0 else timeLeft1;
      ghost var g := State();
      var timeAmount := PlayingTurn(mode, board, player, remain, o.clock(i), o.pick(i), o.elapsed(i));
      ghost var r := (timeAmount, State());
      TurnStep(g, i, noMove, timeLeft0, timeLeft1, player1Mode, player2Mode, o, log, player, mode, remain, r, t);
      if timeAmount.Failed? {
        return Some(timeAmount.err);
      }
      var amount := timeAmount.amount;
      if amount < 0.0 && noMove {
        return None;
      }
      var left0, left1 := timeLeft0, timeLeft1;
      if amount >= 0.0 {
        if player == 1 {
          left0 := timeLeft0 - amount;
        } else {
          left1 := timeLeft1 - amount;
        }
      }
      currentPlayer := -currentPlayer;
      TurnNext(g, i, noMove, timeLeft0, timeLeft1, player1Mode, player2Mode, o, log, player, mode, remain, r, t,
               State(), amount, left0, left1);
      err := RunTurns(i + 1, amount < 0.0, left0, left1, player1Mode, player2Mode, o, log + [Ply(player, amount)], t);
    }
  }
}
