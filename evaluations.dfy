// Heuristic and terminal evaluators of the Othello engine, over the rules
// layer of module Rules. All evaluators read the fixed 8x8 weight tables.
module Evaluations {
  import opened Rules

  /** Weights shared by the simple-table and good/bad evaluators. */
  const GoodBadTable: seq<seq<int>> :=
    [[8, -4, 6, 6, 6, 6, -4, 8],
     [-4, -4, -3, -3, -3, -3, -4, -4],
     [6, -3, 1, 1, 1, 1, -3, 6],
     [6, -3, 1, 2, 2, 1, -3, 6],
     [6, -3, 1, 2, 2, 1, -3, 6],
     [6, -3, 1, 1, 1, 1, -3, 6],
     [-4, -4, -3, -3, -3, -3, -4, -4],
     [8, -4, 6, 6, 6, 6, -4, 8]]

  /** Initial contents of both corner tables. */
  const PointTable0: seq<seq<int>> :=
    [[100, -100, 1, 1, 1, 1, -100, 100],
     [-100, -100, -1, -1, -1, -1, -100, -100],
     [1, -1, 1, -1, -1, 1, -1, 1],
     [1, -1, -1, 1, 1, -1, -1, 1],
     [1, -1, -1, 1, 1, -1, -1, 1],
     [1, -1, 1, -1, -1, 1, -1, 1],
     [-100, -100, -1, -1, -1, -1, -100, -100],
     [100, -100, 1, 1, 1, 1, -100, 100]]

  predicate IsTable(t: seq<seq<int>>) {
    |t| == 8 && forall r :: 0 <= r < 8 ==> |t[r]| == 8
  }

  lemma TablesShape()
    ensures IsTable(GoodBadTable) && IsTable(PointTable0)
  {
  }

  /** The evaluators index 8x8 tables and so need an 8x8 board. */
  predicate IsStdBoard(b: Board) {
    IsSquare(b) && |b| == 8
  }

  /** The good/bad weight of a cell (0 outside the table). */
  function Weight(s: Coord): int {
    if 0 <= s.row < 8 && 0 <= s.col < 8 then GoodBadTable[s.row][s.col] else 0
  }

  lemma WeightBound(s: Coord)
    ensures -4 <= Weight(s) <= 8
  {
    if 0 <= s.row < 8 && 0 <= s.col < 8 {
      var r := GoodBadTable[s.row];
      assert r in GoodBadTable;
      assert r[s.col] in r;
    }
  }

  // ---------------------------------------------------------------------
  // Sums over a board

  /** Sum of the tiles of a row. */
  function RowTotal(row: seq<int>): int {
    if row == [] then 0 else RowTotal(row[..|row| - 1]) + row[|row| - 1]
  }

  /** Sum of all tiles of a board, row by row. */
  function TileSum(b: Board): int {
    if b == [] then 0 else TileSum(b[..|b| - 1]) + RowTotal(b[|b| - 1])
  }

  lemma {:induction false} RowTotalCounts(x: seq<int>)
    requires forall i :: 0 <= i < |x| ==> -1 <= x[i] <= 1
    ensures RowTotal(x) == CountRow(x, 1) - CountRow(x, -1)
  {
    if x != [] {
      RowTotalCounts(x[..|x| - 1]);
    }
  }

  lemma {:induction false} TileSumCountsRows(b: Board)
    requires forall r, c :: 0 <= r < |b| && 0 <= c < |b[r]| ==> -1 <= b[r][c] <= 1
    ensures TileSum(b) == Count(b, 1) - Count(b, -1)
  {
    if b != [] {
      TileSumCountsRows(b[..|b| - 1]);
      RowTotalCounts(b[|b| - 1]);
    }
  }

  /** On a board of tiles the tile sum is the lead of player 1 in tiles. */
  lemma TileSumCounts(b: Board)
    requires IsTiles(b)
    ensures TileSum(b) == Count(b, 1) - Count(b, -1)
  {
    TileSumCountsRows(b);
  }

  lemma RowTotalNext(row: seq<int>, j: int)
    requires 0 <= j < |row|
    ensures RowTotal(row[..j + 1]) == RowTotal(row[..j]) + row[j]
  {
    assert row[..j + 1][..j] == row[..j];
  }

  lemma TileSumNext(b: Board, i: int)
    requires 0 <= i < |b|
    ensures TileSum(b[..i + 1]) == TileSum(b[..i]) + RowTotal(b[i])
  {
    assert b[..i + 1][..i] == b[..i];
  }

  // ---------------------------------------------------------------------
  // evaluate_final

  /** The terminal score: 10000 plus the tile sum when it is positive,
      -10000 plus it when negative, 0 for a draw. */
  function FinalScore(b: Board): (r: int)
    ensures r > 0 <==> TileSum(b) > 0
    ensures r < 0 <==> TileSum(b) < 0
    ensures r > 0 ==> r > 10000 && r - 10000 == TileSum(b)
    ensures r < 0 ==> r < -10000 && r + 10000 == TileSum(b)
  {
    var s := TileSum(b);
    if s > 0 then 10000 + s else if s < 0 then -10000 + s else 0
  }

  /** The terminal score rewards exactly the side with more tiles. */
  lemma FinalScoreWinner(b: Board)
    requires IsTiles(b)
    ensures FinalScore(b) > 0 <==> Count(b, 1) > Count(b, -1)
    ensures FinalScore(b) < 0 <==> Count(b, -1) > Count(b, 1)
    ensures FinalScore(b) == 0 <==> Count(b, 1) == Count(b, -1)
  {
    TileSumCounts(b);
  }

  method EvaluateFinal(b: Board) returns (r: int)
    ensures r == FinalScore(b)
  {
    var total := 0;
    for i := 0 to |b|
      invariant total == TileSum(b[..i])
    {
      for j := 0 to |b[i]|
        invariant total == TileSum(b[..i]) + RowTotal(b[i][..j])
      {
        RowTotalNext(b[i], j);
        total := total + b[i][j];
      }
      assert b[i][..|b[i]|] == b[i];
      TileSumNext(b, i);
    }
    assert b[..|b|] == b;
    if total > 0 {
      r := 10000 + total;
    } else if total < 0 {
      r := -10000 + total;
    } else {
      r := 0;
    }
  }

  // ---------------------------------------------------------------------
  // evaluate_simple_table

  /** A tile's contribution to the weighted sum: tile times its weight. */
  function SimpleTerm(b: Board, i: int, j: int): int
    requires IsSquare(b) && IsValidCoord(b, i, j)
  {
    if b[i][j] != 0 then b[i][j] * Weight(Coord(i, j)) else 0
  }

  /** Weighted tiles of row i, columns 0 .. j - 1. */
  function SimpleRow(b: Board, i: int, j: nat): int
    requires IsSquare(b) && 0 <= i < |b| && j <= |b|
  {
    if j == 0 then 0 else SimpleRow(b, i, j - 1) + SimpleTerm(b, i, j - 1)
  }

  /** Weighted tiles of rows 0 .. i - 1. */
  function SimpleGrid(b: Board, i: nat): int
    requires IsSquare(b) && i <= |b|
  {
    if i == 0 then 0 else SimpleGrid(b, i - 1) + SimpleRow(b, i - 1, |b|)
  }

  lemma SimpleRowNext(b: Board, i: int, j: int)
    requires IsStdBoard(b) && 0 <= i < 8 && 0 <= j < 8
    ensures SimpleRow(b, i, j + 1) ==
              SimpleRow(b, i, j) + (if b[i][j] != 0 then b[i][j] * GoodBadTable[i][j] else 0)
  {
  }

  /** (2 * weighted tiles + mobility * player) * 10 + tile sum. */
  function SimpleTable(b: Board, p: int): int
    requires IsStdBoard(b)
  {
    (2 * SimpleGrid(b, |b|) + |LegalMoves(b, p)| * p) * 10 + TileSum(b)
  }

  method EvaluateSimpleTable(b: Board, p: int) returns (r: int)
    requires IsStdBoard(b)
    ensures r == SimpleTable(b, p)
  {
    TablesShape();
    var score := 0;
    var total := 0;
    for i := 0 to |b|
      invariant score == SimpleGrid(b, i)
      invariant total == TileSum(b[..i])
    {
      for j := 0 to |b[i]|
        invariant score == SimpleGrid(b, i) + SimpleRow(b, i, j)
        invariant total == TileSum(b[..i]) + RowTotal(b[i][..j])
      {
        var tile := b[i][j];
        RowTotalNext(b[i], j);
        SimpleRowNext(b, i, j);
        if tile != 0 {
          total := total + tile;
          score := score + tile * GoodBadTable[i][j];
        }
      }
      assert b[i][..|b[i]|] == b[i];
      TileSumNext(b, i);
    }
    assert b[..|b|] == b;
    var legal := GetLegalMoves(b, p);
    r := (2 * score + |legal| * p) * 10 + total;
  }

  // ---------------------------------------------------------------------
  // evaluate_good

  /** The neighbour of s in direction d. */
  function Next(s: Coord, d: Dir): Coord {
    Coord(s.row + d.dr, s.col + d.dc)
  }

  /** The inner walk of evaluate_good: s is the cell reached after t steps
      along d; while t < size it steps on, stops at the tile's own colour
      `tale` or the board edge, and keeps the best weight of an empty cell
      seen so far. */
  function GoodRay(b: Board, d: Dir, tale: int, s: Coord, t: nat, mp: int): int
    requires IsSquare(b)
    decreases |b| - t
  {
    if t >= |b| then mp
    else
      var n := Next(s, d);
      if !InBoard(b, n) || At(b, n) == tale then mp
      else GoodRay(b, d, tale, n, t + 1, if At(b, n) == 0 && Weight(n) > mp then Weight(n) else mp)
  }

  /** The direction loop of evaluate_good from direction k on. A first
      step off the board or onto `tale` ends the whole loop, not just
      that direction. */
  function GoodDirs(b: Board, dirs: seq<Dir>, o: Coord, tale: int, k: nat, mp: int): int
    requires IsSquare(b) && k <= |dirs|
    decreases |dirs| - k
  {
    if k == |dirs| then mp
    else
      var s := Next(o, dirs[k]);
      if !InBoard(b, s) || At(b, s) == tale then mp
      else GoodDirs(b, dirs, o, tale, k + 1, GoodRay(b, dirs[k], tale, s, 1, mp))
  }

  /** evaluate_good: the best reachable empty weight times the tile. */
  function Good(b: Board, o: Coord): int
    requires IsStdBoard(b) && InBoard(b, o)
  {
    GoodValue(GoodDirs(b, MoveDirs, o, At(b, o), 0, 0), At(b, o))
  }

  function GoodValue(m: int, tale: int): int {
    m * tale
  }

  /** A weight that is 0 or the weight of an empty cell. */
  ghost predicate EmptyWeight(b: Board, m: int)
    requires IsSquare(b)
  {
    m == 0 || exists s :: InBoard(b, s) && At(b, s) == 0 && Weight(s) == m
  }

  lemma GoodRayBound(b: Board, d: Dir, tale: int, s: Coord, t: nat, mp: int)
    requires IsSquare(b) && 0 <= mp <= 8 && EmptyWeight(b, mp)
    ensures mp <= GoodRay(b, d, tale, s, t, mp) <= 8
    ensures EmptyWeight(b, GoodRay(b, d, tale, s, t, mp))
  {
    GoodRayRange(b, d, tale, s, t, mp);
    GoodRayEmpty(b, d, tale, s, t, mp);
  }

  /** A ray only raises its running maximum, and never above 8. */
  lemma {:induction false} GoodRayRange(b: Board, d: Dir, tale: int, s: Coord, t: nat, mp: int)
    requires IsSquare(b) && mp <= 8
    decreases |b| - t
    ensures mp <= GoodRay(b, d, tale, s, t, mp) <= 8
  {
    if t < |b| {
      var n := Next(s, d);
      if InBoard(b, n) && At(b, n) != tale {
        WeightBound(n);
        GoodRayRange(b, d, tale, n, t + 1, if At(b, n) == 0 && Weight(n) > mp then Weight(n) else mp);
      }
    }
  }

  /** A ray's maximum is 0 or the weight of an empty cell when it starts so. */
  lemma {:induction false} GoodRayEmpty(b: Board, d: Dir, tale: int, s: Coord, t: nat, mp: int)
    requires IsSquare(b) && EmptyWeight(b, mp)
    decreases |b| - t
    ensures EmptyWeight(b, GoodRay(b, d, tale, s, t, mp))
  {
    if t < |b| {
      var n := Next(s, d);
      if InBoard(b, n) && At(b, n) != tale {
        EmptyStep(b, n, mp);
        GoodRayEmpty(b, d, tale, n, t + 1, if At(b, n) == 0 && Weight(n) > mp then Weight(n) else mp);
      }
    }
  }

  /** Taking an empty cell's weight as the new maximum keeps it one. */
  lemma EmptyStep(b: Board, n: Coord, mp: int)
    requires IsSquare(b) && InBoard(b, n) && EmptyWeight(b, mp)
    ensures EmptyWeight(b, if At(b, n) == 0 && Weight(n) > mp then Weight(n) else mp)
  {
  }

  lemma {:induction false} GoodDirsBound(b: Board, dirs: seq<Dir>, o: Coord, tale: int, k: nat, mp: int)
    requires IsSquare(b) && k <= |dirs| && 0 <= mp <= 8 && EmptyWeight(b, mp)
    decreases |dirs| - k
    ensures mp <= GoodDirs(b, dirs, o, tale, k, mp) <= 8
    ensures EmptyWeight(b, GoodDirs(b, dirs, o, tale, k, mp))
  {
    if k < |dirs| {
      var s := Next(o, dirs[k]);
      if InBoard(b, s) && At(b, s) != tale {
        GoodRayBound(b, dirs[k], tale, s, 1, mp);
        GoodDirsBound(b, dirs, o, tale, k + 1, GoodRay(b, dirs[k], tale, s, 1, mp));
      }
    }
  }

  /** evaluate_good is the tile times some m in 0 .. 8, where m is 0 or the
      weight of an empty cell of the board. */
  lemma GoodShape(b: Board, o: Coord)
    requires IsStdBoard(b) && InBoard(b, o)
    ensures var m := GoodDirs(b, MoveDirs, o, At(b, o), 0, 0);
            Good(b, o) == m * At(b, o) && 0 <= m <= 8 && EmptyWeight(b, m)
  {
    GoodDirsBound(b, MoveDirs, o, At(b, o), 0, 0);
  }

  /** The first direction is up-left: when that neighbour is off the board
      or holds the same tile, the direction loop ends at once and
      evaluate_good is 0 whatever the other seven directions hold. */
  lemma GoodFirstDirectionBlocks(b: Board, o: Coord)
    requires IsStdBoard(b) && InBoard(b, o)
    requires var s := Coord(o.row - 1, o.col - 1); !InBoard(b, s) || At(b, s) == At(b, o)
    ensures Good(b, o) == 0
  {
    assert Next(o, MoveDirs[0]) == Coord(o.row - 1, o.col - 1);
  }

  lemma GoodRayStop(b: Board, d: Dir, tale: int, s: Coord, t: nat, mp: int)
    requires IsSquare(b) && t < |b|
    requires !InBoard(b, Next(s, d)) || At(b, Next(s, d)) == tale
    ensures GoodRay(b, d, tale, s, t, mp) == mp
  {
  }

  lemma GoodRayGo(b: Board, d: Dir, tale: int, s: Coord, t: nat, mp: int)
    requires IsSquare(b) && t < |b|
    requires InBoard(b, Next(s, d)) && At(b, Next(s, d)) != tale
    ensures var n := Next(s, d);
            GoodRay(b, d, tale, s, t, mp) ==
            GoodRay(b, d, tale, n, t + 1, if At(b, n) == 0 && Weight(n) > mp then Weight(n) else mp)
  {
  }

  lemma GoodDirsStop(b: Board, dirs: seq<Dir>, o: Coord, tale: int, k: nat, mp: int)
    requires IsSquare(b) && k < |dirs|
    requires !InBoard(b, Next(o, dirs[k])) || At(b, Next(o, dirs[k])) == tale
    ensures GoodDirs(b, dirs, o, tale, k, mp) == mp
  {
  }

  lemma GoodDirsGo(b: Board, dirs: seq<Dir>, o: Coord, tale: int, k: nat, mp: int)
    requires IsSquare(b) && k < |dirs|
    requires InBoard(b, Next(o, dirs[k])) && At(b, Next(o, dirs[k])) != tale
    ensures GoodDirs(b, dirs, o, tale, k, mp) ==
            GoodDirs(b, dirs, o, tale, k + 1, GoodRay(b, dirs[k], tale, Next(o, dirs[k]), 1, mp))
  {
  }

  method EvaluateGood(o: Coord, b: Board) returns (score: int)
    requires IsStdBoard(b) && InBoard(b, o)
    ensures score == Good(b, o)
  {
    var tale := b[o.row][o.col];
    var maxPoint := 0;
    ghost var target := GoodDirs(b, MoveDirs, o, tale, 0, 0);
    var k := 0;
    while k < |MoveDirs|
      invariant 0 <= k <= |MoveDirs|
      invariant GoodDirs(b, MoveDirs, o, tale, k, maxPoint) == target
      decreases |MoveDirs| - k
    {
      var d := MoveDirs[k];
      var row, col := o.row + d.dr, o.col + d.dc;
      assert Next(o, MoveDirs[k]) == Coord(row, col);
      if !IsValidCoord(b, row, col) {
        GoodDirsStop(b, MoveDirs, o, tale, k, maxPoint);
        break;
      }
      if b[row][col] == tale {
        assert At(b, Coord(row, col)) == tale;
        GoodDirsStop(b, MoveDirs, o, tale, k, maxPoint);
        break;
      }
      GoodDirsGo(b, MoveDirs, o, tale, k, maxPoint);
      maxPoint := GoodWalk(b, d, tale, Coord(row, col), maxPoint);
      k := k + 1;
    }
    GoodFinish(b, o, tale, maxPoint);
    score := maxPoint * tale;
  }

  /** The inner `for` loop of evaluate_good: size - 1 further steps along d
      from s1, stopping early at `tale` or the board edge. */
  method GoodWalk(b: Board, d: Dir, tale: int, s1: Coord, mp0: int) returns (maxPoint: int)
    requires IsStdBoard(b)
    ensures maxPoint == GoodRay(b, d, tale, s1, 1, mp0)
  {
    maxPoint := mp0;
    var row, col := s1.row, s1.col;
    for t := 1 to |b|
      invariant GoodRay(b, d, tale, Coord(row, col), t, maxPoint) == GoodRay(b, d, tale, s1, 1, mp0)
    {
      ghost var prev := Coord(row, col);
      row, col := row + d.dr, col + d.dc;
      if IsValidCoord(b, row, col) {
        if b[row][col] == tale {
          GoodRayStop(b, d, tale, prev, t, maxPoint);
          break;
        }
        GoodRayGo(b, d, tale, prev, t, maxPoint);
        if b[row][col] == 0 && Weight(Coord(row, col)) > maxPoint {
          maxPoint := Weight(Coord(row, col));
        }
      } else {
        GoodRayStop(b, d, tale, prev, t, maxPoint);
        break;
      }
    }
  }

  lemma GoodFinish(b: Board, o: Coord, tale: int, m: int)
    requires IsStdBoard(b) && InBoard(b, o) && tale == At(b, o)
    requires GoodDirs(b, MoveDirs, o, tale, 0, 0) == m
    ensures m * tale == Good(b, o)
  {
  }

  // ---------------------------------------------------------------------
  // evaluate_bad

  /** The offset evaluate_bad has reached after k directions: it never
      resets row and col, so the offsets of MoveDirs accumulate. */
  function Cumulative(k: nat): Dir
    requires k <= |MoveDirs|
  {
    if k == 0 then Dir(0, 0)
    else Dir(Cumulative(k - 1).dr + MoveDirs[k - 1].dr, Cumulative(k - 1).dc + MoveDirs[k - 1].dc)
  }

  /** The cell evaluate_bad probes in its k-th iteration (k = 1 .. 8). */
  function BadProbe(o: Coord, k: nat): Coord
    requires k <= |MoveDirs|
  {
    Coord(o.row + Cumulative(k).dr, o.col + Cumulative(k).dc)
  }

  /** The probe loop of evaluate_bad from iteration k + 1 on, where s is
      the cell reached so far (BadProbe(o, k) for the tile o). */
  function BadScan(b: Board, dirs: seq<Dir>, s: Coord, k: nat, mp: int): int
    requires IsSquare(b) && k <= |dirs|
    decreases |dirs| - k
  {
    if k == |dirs| then mp
    else
      var n := Next(s, dirs[k]);
      BadScan(b, dirs, n, k + 1, BadPick(b, n, mp))
  }

  /** One probe of evaluate_bad: an empty cell on the board whose weight
      beats the best so far becomes the new best. */
  function BadPick(b: Board, n: Coord, mp: int): int
    requires IsSquare(b)
  {
    if InBoard(b, n) && At(b, n) == 0 && Weight(n) > mp then Weight(n) else mp
  }

  function BadValue(tale: int, m: int): int {
    -tale * m * 2
  }

  /** evaluate_bad: minus twice the tile times the best probed empty weight. */
  function Bad(b: Board, o: Coord): int
    requires IsStdBoard(b) && InBoard(b, o)
  {
    BadValue(At(b, o), BadScan(b, MoveDirs, o, 0, 0))
  }

  /** The eight cells evaluate_bad probes: five distinct cells, all in the
      rows above the tile or its own row, the last being the tile itself. */
  lemma BadProbes(o: Coord)
    ensures [BadProbe(o, 1), BadProbe(o, 2), BadProbe(o, 3), BadProbe(o, 4),
             BadProbe(o, 5), BadProbe(o, 6), BadProbe(o, 7), BadProbe(o, 8)] ==
            [Coord(o.row - 1, o.col - 1), Coord(o.row - 2, o.col - 1), Coord(o.row - 3, o.col),
             Coord(o.row - 3, o.col - 1), Coord(o.row - 3, o.col), Coord(o.row - 2, o.col - 1),
             Coord(o.row - 1, o.col - 1), o]
  {
  }

  lemma CumulativeUp(k: nat)
    requires k <= |MoveDirs|
    ensures Cumulative(k).dr <= 0
  {
    assert k == 0 || k == 1 || k == 2 || k == 3 || k == 4 || k == 5 || k == 6 || k == 7 || k == 8;
  }

  lemma {:induction false} BadScanBound(b: Board, dirs: seq<Dir>, s: Coord, k: nat, mp: int)
    requires IsSquare(b) && k <= |dirs| && 0 <= mp <= 8 && EmptyWeight(b, mp)
    decreases |dirs| - k
    ensures mp <= BadScan(b, dirs, s, k, mp) <= 8
    ensures EmptyWeight(b, BadScan(b, dirs, s, k, mp))
  {
    if k < |dirs| {
      var n := Next(s, dirs[k]);
      WeightBound(n);
      BadScanBound(b, dirs, n, k + 1, BadPick(b, n, mp));
    }
  }

  /** evaluate_bad is -2 times the tile times some m' in 0 .. 8, where m'
      is 0 or the weight of an empty cell. */
  lemma BadShape(b: Board, o: Coord)
    requires IsStdBoard(b) && InBoard(b, o)
    ensures var m := BadScan(b, MoveDirs, o, 0, 0);
            Bad(b, o) == -At(b, o) * m * 2 && 0 <= m <= 8 && EmptyWeight(b, m)
  {
    BadScanBound(b, MoveDirs, o, 0, 0);
  }

  /** Two boards that agree on the tile's row and the rows above it get the
      same evaluate_bad score there: the probes never look further down. */
  lemma BadLooksUpOnly(b1: Board, b2: Board, o: Coord)
    requires IsStdBoard(b1) && IsStdBoard(b2) && InBoard(b1, o)
    requires forall r, c :: 0 <= r <= o.row && r < 8 && 0 <= c < 8 ==> b1[r][c] == b2[r][c]
    ensures Bad(b1, o) == Bad(b2, o)
  {
    assert At(b1, o) == At(b2, o);
    BadScanFrame(b1, b2, o, o, 0, 0);
  }

  lemma {:induction false} BadScanFrame(b1: Board, b2: Board, o: Coord, s: Coord, k: nat, mp: int)
    requires IsStdBoard(b1) && IsStdBoard(b2) && k <= |MoveDirs| && s == BadProbe(o, k)
    requires forall r, c :: 0 <= r <= o.row && r < 8 && 0 <= c < 8 ==> b1[r][c] == b2[r][c]
    decreases |MoveDirs| - k
    ensures BadScan(b1, MoveDirs, s, k, mp) == BadScan(b2, MoveDirs, s, k, mp)
  {
    if k < |MoveDirs| {
      var n := Next(s, MoveDirs[k]);
      assert n == BadProbe(o, k + 1);
      CumulativeUp(k + 1);
      BadScanFrame(b1, b2, o, n, k + 1, BadPick(b1, n, mp));
    }
  }

  method EvaluateBad(o: Coord, b: Board) returns (score: int)
    requires IsStdBoard(b) && InBoard(b, o)
    ensures score == Bad(b, o)
  {
    var tale := b[o.row][o.col];
    var maxPoint := 0;
    var row, col := o.row, o.col;
    ghost var target := BadScan(b, MoveDirs, o, 0, 0);
    var k := 0;
    while k < |MoveDirs|
      invariant 0 <= k <= |MoveDirs|
      invariant BadScan(b, MoveDirs, Coord(row, col), k, maxPoint) == target
      decreases |MoveDirs| - k
    {
      var d := MoveDirs[k];
      BadScanStep(b, MoveDirs, Coord(row, col), k, maxPoint);
      row, col := row + d.dr, col + d.dc;
      maxPoint := Probe(b, row, col, maxPoint);
      k := k + 1;
    }
    score := BadValue(tale, maxPoint);
  }

  lemma BadScanStep(b: Board, dirs: seq<Dir>, s: Coord, k: nat, mp: int)
    requires IsSquare(b) && k < |dirs|
    ensures BadScan(b, dirs, s, k, mp) == BadScan(b, dirs, Next(s, dirs[k]), k + 1, BadPick(b, Next(s, dirs[k]), mp))
  {
  }

  /** The test inside evaluate_bad's loop. */
  method Probe(b: Board, row: int, col: int, maxPoint: int) returns (m: int)
    requires IsStdBoard(b)
    ensures m == BadPick(b, Coord(row, col), maxPoint)
  {
    TablesShape();
    m := maxPoint;
    if IsValidCoord(b, row, col) && b[row][col] == 0 && GoodBadTable[row][col] > maxPoint {
      m := GoodBadTable[row][col];
    }
  }

  // ---------------------------------------------------------------------
  // evaluate_good_bad

  /** A tile's contribution: evaluate_good plus evaluate_bad at its cell. */
  function GoodBadTerm(b: Board, i: int, j: int): int
    requires IsStdBoard(b) && IsValidCoord(b, i, j)
  {
    if b[i][j] != 0 then Good(b, Coord(i, j)) + Bad(b, Coord(i, j)) else 0
  }

  function GoodBadRow(b: Board, i: int, j: nat): int
    requires IsStdBoard(b) && 0 <= i < |b| && j <= |b|
  {
    if j == 0 then 0 else GoodBadRow(b, i, j - 1) + GoodBadTerm(b, i, j - 1)
  }

  function GoodBadGrid(b: Board, i: nat): int
    requires IsStdBoard(b) && i <= |b|
  {
    if i == 0 then 0 else GoodBadGrid(b, i - 1) + GoodBadRow(b, i - 1, |b|)
  }

  /** 2 * (sum of good + bad over the tiles) + 2 * player * mobility. */
  function GoodBad(b: Board, p: int): int
    requires IsStdBoard(b)
  {
    2 * GoodBadGrid(b, |b|) + 2 * p * |LegalMoves(b, p)|
  }

  method EvaluateGoodBad(b: Board, p: int) returns (r: int)
    requires IsStdBoard(b)
    ensures r == GoodBad(b, p)
  {
    var score := 0;
    for i := 0 to |b|
      invariant score == GoodBadGrid(b, i)
    {
      for j := 0 to |b[i]|
        invariant score == GoodBadGrid(b, i) + GoodBadRow(b, i, j)
      {
        var tile := b[i][j];
        if tile != 0 {
          var good := EvaluateGood(Coord(i, j), b);
          var bad := EvaluateBad(Coord(i, j), b);
          score := score + good + bad;
        }
      }
    }
    var legal := GetLegalMoves(b, p);
    r := 2 * score + 2 * p * |legal|;
  }

  // ---------------------------------------------------------------------
  // evaluate_corner

  /** The corner of group g: top-left, top-right, bottom-left, bottom-right. */
  function Corner(g: nat): Coord
    requires g < 4
  {
    [Coord(0, 0), Coord(0, 7), Coord(7, 0), Coord(7, 7)][g]
  }

  /** The two edge neighbours of corner g. */
  function EdgeCells(g: nat): (Coord, Coord)
    requires g < 4
  {
    [(Coord(0, 1), Coord(1, 0)), (Coord(0, 6), Coord(1, 7)),
     (Coord(6, 0), Coord(7, 1)), (Coord(6, 7), Coord(7, 6))][g]
  }

  /** The diagonal neighbour of corner g. */
  function DiagCell(g: nat): Coord
    requires g < 4
  {
    [Coord(1, 1), Coord(1, 6), Coord(6, 1), Coord(6, 6)][g]
  }

  /** The owner a corner block acts on, 0 when it rewrites nothing: the
      block tests `corner != 0`, then `corner == -1`, then `ownerOne`. */
  function BlockOwner(corner: int, ownerOne: bool): int {
    if corner == 0 then 0 else if corner == -1 then -1 else if ownerOne then 1 else 0
  }

  /** The owner evaluate_corner acts on for corner g. The bottom-right
      block tests board[0][0] == 1, not its own corner, for owner 1. */
  function Owner(b: Board, g: nat): int
    requires IsStdBoard(b) && g < 4
  {
    var v := At(b, Corner(g));
    BlockOwner(v, if g < 3 then v == 1 else b[0][0] == 1)
  }

  /** The value written into an edge neighbour for table w (0 or 1). */
  function EdgeValue(owner: int, w: nat): int {
    if (owner == -1) == (w == 0) then 100 else 1
  }

  /** Table w after rewriting the neighbours of corner g for `owner`. */
  function GroupUpdate(t: seq<seq<int>>, g: nat, owner: int, w: nat): (u: seq<seq<int>>)
    requires IsTable(t) && g < 4
  {
    seq(8, r requires 0 <= r < 8 =>
      seq(8, c requires 0 <= c < 8 =>
        var s := Coord(r, c);
        if owner == 0 then t[r][c]
        else if s == EdgeCells(g).0 || s == EdgeCells(g).1 then EdgeValue(owner, w)
        else if s == DiagCell(g) then 1
        else t[r][c]))
  }

  /** The table t with v written at cell s. */
  function Write(t: seq<seq<int>>, s: Coord, v: int): (u: seq<seq<int>>)
    requires IsTable(t) && 0 <= s.row < 8 && 0 <= s.col < 8
    ensures IsTable(u)
  {
    t[s.row := t[s.row][s.col := v]]
  }

  /** A table equals GroupUpdate when it agrees with it cell by cell. */
  lemma GroupUpdateEq(t: seq<seq<int>>, u: seq<seq<int>>, g: nat, owner: int, w: nat)
    requires IsTable(t) && IsTable(u) && g < 4 && owner != 0
    requires u == Write(Write(Write(t, EdgeCells(g).0, EdgeValue(owner, w)), EdgeCells(g).1, EdgeValue(owner, w)), DiagCell(g), 1)
    ensures u == GroupUpdate(t, g, owner, w)
  {
    var v := GroupUpdate(t, g, owner, w);
    forall r | 0 <= r < 8
      ensures u[r] == v[r]
    {
      forall c | 0 <= c < 8
        ensures u[r][c] == v[r][c]
      {
      }
    }
  }

  /** Table w after all four corner blocks of evaluate_corner. */
  function CornerUpdate(t: seq<seq<int>>, b: Board, w: nat): (u: seq<seq<int>>)
    requires IsTable(t) && IsStdBoard(b)
    ensures IsTable(u)
  {
    var t1 := GroupUpdate(t, 0, Owner(b, 0), w);
    var t2 := GroupUpdate(t1, 1, Owner(b, 1), w);
    var t3 := GroupUpdate(t2, 2, Owner(b, 2), w);
    GroupUpdate(t3, 3, Owner(b, 3), w)
  }

  /** A tile's contribution: the tile times its entry of table 0 (for -1)
      or table 1 (for 1). */
  function CornerTerm(b: Board, t0: seq<seq<int>>, t1: seq<seq<int>>, i: int, j: int): int
    requires IsStdBoard(b) && IsTable(t0) && IsTable(t1) && 0 <= i < 8 && 0 <= j < 8
  {
    var tile := b[i][j];
    if tile == -1 then tile * t0[i][j] else if tile == 1 then tile * t1[i][j] else 0
  }

  function CornerRow(b: Board, t0: seq<seq<int>>, t1: seq<seq<int>>, i: int, j: nat): int
    requires IsStdBoard(b) && IsTable(t0) && IsTable(t1) && 0 <= i < 8 && j <= 8
  {
    if j == 0 then 0 else CornerRow(b, t0, t1, i, j - 1) + CornerTerm(b, t0, t1, i, j - 1)
  }

  function CornerGrid(b: Board, t0: seq<seq<int>>, t1: seq<seq<int>>, i: nat): int
    requires IsStdBoard(b) && IsTable(t0) && IsTable(t1) && i <= 8
  {
    if i == 0 then 0 else CornerGrid(b, t0, t1, i - 1) + CornerRow(b, t0, t1, i - 1, 8)
  }

  /** Tiles on the board (cells holding -1 or 1). */
  function NumTiles(b: Board): nat {
    Count(b, -1) + Count(b, 1)
  }

  /** The tapering denominator of evaluate_corner is at least 1. */
  lemma CornerDenominator(b: Board)
    requires IsStdBoard(b)
    ensures 65 - NumTiles(b) >= 1
  {
    CountPair(b, -1, 1);
  }

  /** evaluate_corner's result: the table score plus
      3 * tile sum / (65 - number of tiles), as exact division. */
  function CornerScore(b: Board, t0: seq<seq<int>>, t1: seq<seq<int>>): real
    requires IsStdBoard(b) && IsTable(t0) && IsTable(t1)
  {
    CornerDenominator(b);
    CornerGrid(b, t0, t1, 8) as real + (3 * TileSum(b)) as real / (65 - NumTiles(b)) as real
  }

  /** POINT_TABLE_0 and POINT_TABLE_1: the mutable tables evaluate_corner
      rewrites before it scores. */
  class CornerTables {
    var table0: seq<seq<int>>
    var table1: seq<seq<int>>

    ghost predicate Valid()
      reads this
    {
      IsTable(table0) && IsTable(table1)
    }

    /** Both tables start as copies of POINT_TABLE_0. */
    constructor ()
      ensures Valid() && table0 == PointTable0 && table1 == PointTable0
    {
      TablesShape();
      table0 := PointTable0;
      table1 := PointTable0;
    }

    /** Writes v0 into table 0 and v1 into table 1 at (r, c). */
    method Put(r: int, c: int, v0: int, v1: int)
      requires Valid() && 0 <= r < 8 && 0 <= c < 8
      modifies this
      ensures Valid()
      ensures table0 == Write(old(table0), Coord(r, c), v0)
      ensures table1 == Write(old(table1), Coord(r, c), v1)
    {
      table0 := table0[r := table0[r][c := v0]];
      table1 := table1[r := table1[r][c := v1]];
    }

    /** One corner block for an owner of -1 or 1: both edge neighbours get
        100 in the owner's opponent table... */
    method RewriteGroup(g: nat, owner: int)
      requires Valid() && g < 4 && (owner == -1 || owner == 1)
      modifies this
      ensures Valid()
      ensures table0 == GroupUpdate(old(table0), g, owner, 0)
      ensures table1 == GroupUpdate(old(table1), g, owner, 1)
    {
      var e := EdgeCells(g);
      var dg := DiagCell(g);
      assert e.0 != e.1 && e.0 != dg && e.1 != dg;
      Put(e.0.row, e.0.col, EdgeValue(owner, 0), EdgeValue(owner, 1));
      Put(e.1.row, e.1.col, EdgeValue(owner, 0), EdgeValue(owner, 1));
      Put(dg.row, dg.col, 1, 1);
      GroupUpdateEq(old(table0), table0, g, owner, 0);
      GroupUpdateEq(old(table1), table1, g, owner, 1);
    }
  
    /** evaluate_corner: rewrite the corner neighbours of both tables for
        each owned corner, then score the board against them. */
    method EvaluateCorner(b: Board) returns (r: real)
      requires Valid() && IsStdBoard(b)
      modifies this
      ensures Valid()
      ensures table0 == CornerUpdate(old(table0), b, 0)
      ensures table1 == CornerUpdate(old(table1), b, 1)
      ensures r == CornerScore(b, table0, table1)
    {
      ghost var t0, t1 := table0, table1;
      CornerBlock(0, b[0][0], b[0][0] == 1);
      CornerBlock(1, b[0][7], b[0][7] == 1);
      CornerBlock(2, b[7][0], b[7][0] == 1);
      CornerBlock(3, b[7][7], b[0][0] == 1);
      assert table0 == CornerUpdate(t0, b, 0) && table1 == CornerUpdate(t1, b, 1) by {
        assert forall g :: 0 <= g < 4 ==> Owner(b, g) == BlockOwner(b[Corner(g).row][Corner(g).col],
                                                         if g < 3 then b[Corner(g).row][Corner(g).col] == 1 else b[0][0] == 1);
      }
      r := Score(b);
    }

    /** One corner block of evaluate_corner: when the corner holds a tile,
        rewrite for owner -1 if it is -1, else for owner 1 if `ownerOne`. */
    method CornerBlock(g: nat, corner: int, ownerOne: bool)
      requires Valid() && g < 4
      modifies this
      ensures Valid()
      ensures table0 == GroupUpdate(old(table0), g, BlockOwner(corner, ownerOne), 0)
      ensures table1 == GroupUpdate(old(table1), g, BlockOwner(corner, ownerOne), 1)
    {
      if corner != 0 {
        if corner == -1 {
          RewriteGroup(g, -1);
          return;
        } else if ownerOne {
          RewriteGroup(g, 1);
          return;
        }
      }
      GroupUpdateNone(table0, g, 0);
      GroupUpdateNone(table1, g, 1);
    }

    /** The scoring loop of evaluate_corner against the current tables. */
    method Score(b: Board) returns (r: real)
      requires Valid() && IsStdBoard(b)
      ensures r == CornerScore(b, table0, table1)
    {
      var score := 0;
      var total := 0;
      var num := 0;
      for i := 0 to |b|
        invariant score == CornerGrid(b, table0, table1, i)
        invariant total == TileSum(b[..i])
        invariant num == Count(b[..i], -1) + Count(b[..i], 1)
      {
        for j := 0 to |b[i]|
          invariant score == CornerGrid(b, table0, table1, i) + CornerRow(b, table0, table1, i, j)
          invariant total == TileSum(b[..i]) + RowTotal(b[i][..j])
          invariant num == Count(b[..i], -1) + Count(b[..i], 1) + CountRow(b[i][..j], -1) + CountRow(b[i][..j], 1)
        {
          var tile := b[i][j];
          RowTotalNext(b[i], j);
          CountRowNext(b[i], j, -1);
          CountRowNext(b[i], j, 1);
          total := total + tile;
          if tile == -1 {
            num := num + 1;
            score := score + tile * table0[i][j];
          } else if tile == 1 {
            num := num + 1;
            score := score + tile * table1[i][j];
          }
        }
        assert b[i][..|b[i]|] == b[i];
        TileSumNext(b, i);
        CountNext(b, i, -1);
        CountNext(b, i, 1);
      }
      assert b[..|b|] == b;
      CornerDenominator(b);
      r := score as real + (3 * total) as real / (65 - num) as real;
    }
  }

  /** A group with no owner leaves the table as it is. */
  lemma GroupUpdateNone(t: seq<seq<int>>, g: nat, w: nat)
    requires IsTable(t) && g < 4
    ensures GroupUpdate(t, g, 0, w) == t
  {
    var v := GroupUpdate(t, g, 0, w);
    forall r | 0 <= r < 8
      ensures v[r] == t[r]
    {
    }
  }

  /** The twelve cells next to a corner (corners excluded). */
  predicate NearCorner(s: Coord) {
    0 <= s.row < 8 && 0 <= s.col < 8 &&
    (s.row <= 1 || s.row >= 6) && (s.col <= 1 || s.col >= 6) &&
    s !in {Coord(0, 0), Coord(0, 7), Coord(7, 0), Coord(7, 7)}
  }

  lemma GroupUpdateCell(t: seq<seq<int>>, g: nat, owner: int, w: nat, r: int, c: int)
    requires IsTable(t) && g < 4 && 0 <= r < 8 && 0 <= c < 8
    ensures var u := GroupUpdate(t, g, owner, w)[r][c];
            u == t[r][c] || ((u == 1 || u == 100) && NearCorner(Coord(r, c)))
  {
  }

  /** evaluate_corner only rewrites the twelve cells next to a corner, and
      only with the values 1 and 100. */
  lemma CornerUpdateCell(t: seq<seq<int>>, b: Board, w: nat, r: int, c: int)
    requires IsTable(t) && IsStdBoard(b) && 0 <= r < 8 && 0 <= c < 8
    ensures var u := CornerUpdate(t, b, w)[r][c];
            u == t[r][c] || ((u == 1 || u == 100) && NearCorner(Coord(r, c)))
    ensures !NearCorner(Coord(r, c)) ==> CornerUpdate(t, b, w)[r][c] == t[r][c]
  {
    var t1 := GroupUpdate(t, 0, Owner(b, 0), w);
    var t2 := GroupUpdate(t1, 1, Owner(b, 1), w);
    var t3 := GroupUpdate(t2, 2, Owner(b, 2), w);
    GroupUpdateCell(t, 0, Owner(b, 0), w, r, c);
    GroupUpdateCell(t1, 1, Owner(b, 1), w, r, c);
    GroupUpdateCell(t2, 2, Owner(b, 2), w, r, c);
    GroupUpdateCell(t3, 3, Owner(b, 3), w, r, c);
  }

  /** For a corner owned by -1 or 1, its two edge neighbours get 100 in one
      table and 1 in the other (100 in table 0 when -1 owns it), and its
      diagonal neighbour gets 1 in both. Corners 0 .. 2 only; see
      CornerBottomRight for corner 3. */
  lemma CornerOwned(t0: seq<seq<int>>, t1: seq<seq<int>>, b: Board, g: nat)
    requires IsTable(t0) && IsTable(t1) && IsStdBoard(b) && g < 3
    requires IsPlayer(At(b, Corner(g)))
    ensures var e := EdgeCells(g).0;
            var u0, u1 := CornerUpdate(t0, b, 0), CornerUpdate(t1, b, 1);
            u0[e.row][e.col] == (if At(b, Corner(g)) == -1 then 100 else 1) &&
            u1[e.row][e.col] == (if At(b, Corner(g)) == -1 then 1 else 100)
    ensures var e := EdgeCells(g).1;
            var u0, u1 := CornerUpdate(t0, b, 0), CornerUpdate(t1, b, 1);
            u0[e.row][e.col] == (if At(b, Corner(g)) == -1 then 100 else 1) &&
            u1[e.row][e.col] == (if At(b, Corner(g)) == -1 then 1 else 100)
    ensures var d := DiagCell(g);
            CornerUpdate(t0, b, 0)[d.row][d.col] == 1 && CornerUpdate(t1, b, 1)[d.row][d.col] == 1
  {
    var owner := Owner(b, g);
    assert owner == At(b, Corner(g));
    CornerOwnedAt(t0, b, 0, g, EdgeCells(g).0);
    CornerOwnedAt(t1, b, 1, g, EdgeCells(g).0);
    CornerOwnedAt(t0, b, 0, g, EdgeCells(g).1);
    CornerOwnedAt(t1, b, 1, g, EdgeCells(g).1);
    CornerOwnedAt(t0, b, 0, g, DiagCell(g));
    CornerOwnedAt(t1, b, 1, g, DiagCell(g));
    GroupCells(t0, g, owner, 0);
    GroupCells(t1, g, owner, 1);
  }

  /** What corner block g writes for a non-zero owner: the edge value at
      both edge cells and 1 at the diagonal cell. */
  lemma GroupCells(t: seq<seq<int>>, g: nat, owner: int, w: nat)
    requires IsTable(t) && g < 4 && owner != 0
    ensures var u, e0, e1, d := GroupUpdate(t, g, owner, w), EdgeCells(g).0, EdgeCells(g).1, DiagCell(g);
            u[e0.row][e0.col] == EdgeValue(owner, w) && u[e1.row][e1.col] == EdgeValue(owner, w) &&
            u[d.row][d.col] == 1
  {
  }

  /** The three cells corner block g writes. */
  predicate InGroup(s: Coord, g: nat)
    requires g < 4
  {
    s == EdgeCells(g).0 || s == EdgeCells(g).1 || s == DiagCell(g)
  }

  lemma GroupUpdateOutside(t: seq<seq<int>>, h: nat, owner: int, w: nat, s: Coord)
    requires IsTable(t) && h < 4 && 0 <= s.row < 8 && 0 <= s.col < 8 && !InGroup(s, h)
    ensures GroupUpdate(t, h, owner, w)[s.row][s.col] == t[s.row][s.col]
  {
  }

  lemma GroupUpdateInside(t: seq<seq<int>>, t': seq<seq<int>>, g: nat, owner: int, w: nat, s: Coord)
    requires IsTable(t) && IsTable(t') && g < 4 && owner != 0 && InGroup(s, g)
    ensures 0 <= s.row < 8 && 0 <= s.col < 8
    ensures GroupUpdate(t, g, owner, w)[s.row][s.col] == GroupUpdate(t', g, owner, w)[s.row][s.col]
  {
  }

  lemma GroupsDisjoint(s: Coord, g: nat, h: nat)
    requires g < 4 && h < 4 && g != h && InGroup(s, g)
    ensures !InGroup(s, h)
  {
  }

  /** The cells of an owned corner end up as that corner's block wrote
      them: no other block touches them. */
  lemma CornerOwnedAt(t: seq<seq<int>>, b: Board, w: nat, g: nat, s: Coord)
    requires IsTable(t) && IsStdBoard(b) && g < 4 && Owner(b, g) != 0 && InGroup(s, g)
    ensures 0 <= s.row < 8 && 0 <= s.col < 8
    ensures CornerUpdate(t, b, w)[s.row][s.col] == GroupUpdate(t, g, Owner(b, g), w)[s.row][s.col]
  {
    GroupUpdateInside(t, t, g, Owner(b, g), w, s);
    var t1 := GroupUpdate(t, 0, Owner(b, 0), w);
    var t2 := GroupUpdate(t1, 1, Owner(b, 1), w);
    var t3 := GroupUpdate(t2, 2, Owner(b, 2), w);
    var t4 := GroupUpdate(t3, 3, Owner(b, 3), w);
    forall h | 0 <= h < 4 && h != g
      ensures !InGroup(s, h)
    {
      GroupsDisjoint(s, g, h);
    }
    if g == 0 {
      GroupUpdateOutside(t1, 1, Owner(b, 1), w, s);
      GroupUpdateOutside(t2, 2, Owner(b, 2), w, s);
      GroupUpdateOutside(t3, 3, Owner(b, 3), w, s);
    } else if g == 1 {
      GroupUpdateOutside(t, 0, Owner(b, 0), w, s);
      GroupUpdateInside(t1, t, 1, Owner(b, 1), w, s);
      GroupUpdateOutside(t2, 2, Owner(b, 2), w, s);
      GroupUpdateOutside(t3, 3, Owner(b, 3), w, s);
    } else if g == 2 {
      GroupUpdateInside(t2, t, 2, Owner(b, 2), w, s);
      GroupUpdateOutside(t3, 3, Owner(b, 3), w, s);
    } else {
      GroupUpdateInside(t3, t, 3, Owner(b, 3), w, s);
    }
  }

  /** The bottom-right block: a -1 corner is handled like the others, but
      a 1 corner rewrites its neighbours only when board[0][0] is 1 too;
      otherwise the tables keep their old values there. */
  lemma CornerBottomRight(t: seq<seq<int>>, b: Board, w: nat)
    requires IsTable(t) && IsStdBoard(b) && b[7][7] == 1
    ensures b[0][0] != 1 ==>
              CornerUpdate(t, b, w)[6][7] == t[6][7] && CornerUpdate(t, b, w)[7][6] == t[7][6] &&
              CornerUpdate(t, b, w)[6][6] == t[6][6]
    ensures b[0][0] == 1 ==>
              CornerUpdate(t, b, w)[6][7] == EdgeValue(1, w) && CornerUpdate(t, b, w)[7][6] == EdgeValue(1, w) &&
              CornerUpdate(t, b, w)[6][6] == 1
  {
  }
}
