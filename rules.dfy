/** The rules layer of the engine (evaluations.py): board geometry, the ray
    scan that finds a flippable line, move legality, legal-move enumeration
    and move application. Boards are square grids of tiles: 1 and -1 are the
    two players, 0 is an empty cell. */
module Rules {

  datatype Option<T> = None | Some(value: T)

  type Board = seq<seq<int>>

  datatype Coord = Coord(row: int, col: int)

  datatype Dir = Dir(dr: int, dc: int)

  /** MOVE_DIRS, in the order the source visits them. */
  const MoveDirs: seq<Dir> := [Dir(-1, -1), Dir(-1, 0), Dir(-1, 1),
                               Dir(0, -1), Dir(0, 1),
                               Dir(1, -1), Dir(1, 0), Dir(1, 1)]

  predicate IsSquare(b: Board) {
    forall r :: 0 <= r < |b| ==> |b[r]| == |b|
  }

  /** Every cell holds a tile value: -1, 0 or 1. */
  predicate IsTiles(b: Board) {
    IsSquare(b) && forall r, c :: 0 <= r < |b| && 0 <= c < |b| ==> -1 <= b[r][c] <= 1
  }

  predicate IsPlayer(p: int) {
    p == 1 || p == -1
  }

  /** A compass offset: each component in {-1, 0, 1}, not both zero. */
  predicate IsDir(d: Dir) {
    -1 <= d.dr <= 1 && -1 <= d.dc <= 1 && d != Dir(0, 0)
  }

  /** is_valid_coord */
  predicate IsValidCoord(b: Board, row: int, col: int) {
    0 <= row < |b| && 0 <= col < |b|
  }

  predicate InBoard(b: Board, s: Coord) {
    IsValidCoord(b, s.row, s.col)
  }

  function At(b: Board, s: Coord): int
    requires IsSquare(b) && InBoard(b, s)
  {
    b[s.row][s.col]
  }

  /** The cell `i` steps away from `o` along `d`. */
  function Step(o: Coord, d: Dir, i: int): Coord {
    Coord(o.row + d.dr * i, o.col + d.dc * i)
  }

  /** An upper bound on how far a ray from `o` can stay on the board. */
  function Reach(b: Board, o: Coord): int {
    |b| + (if o.row < 0 then -o.row else o.row) + (if o.col < 0 then -o.col else o.col)
  }

  lemma StepBound(b: Board, o: Coord, d: Dir, i: int)
    requires IsDir(d) && i >= 0 && InBoard(b, Step(o, d, i))
    ensures i < Reach(b, o)
  {
    if d.dr == 1 { assert o.row + i < |b|; }
    else if d.dr == -1 { assert o.row - i >= 0; }
    else if d.dc == 1 { assert o.col + i < |b|; }
    else { assert d.dc == -1; assert o.col - i >= 0; }
  }

  lemma StepNext(o: Coord, d: Dir, j: int)
    ensures Step(o, d, j + 1) == Coord(Step(o, d, j).row + d.dr, Step(o, d, j).col + d.dc)
  {
  }

  lemma MoveDirsAreDirs()
    ensures forall d :: d in MoveDirs ==> IsDir(d)
  {
  }

  /** Tile at `s` is on the board, occupied, and not `p`'s. */
  predicate IsOther(b: Board, s: Coord, p: int)
    requires IsSquare(b)
  {
    InBoard(b, s) && At(b, s) != 0 && At(b, s) != p
  }

  /** Tile at `s` is on the board and is `p`'s. */
  predicate IsOwn(b: Board, s: Coord, p: int)
    requires IsSquare(b)
  {
    InBoard(b, s) && At(b, s) == p
  }

  /** The scan of has_tile_to_flip from step `i` on: Some(k) when step k is
      the first step (from i) that is not an opponent tile and it holds
      `p`; None when the ray first meets an empty or off-board cell. */
  function Scan(b: Board, o: Coord, d: Dir, p: int, i: nat): Option<nat>
    requires IsSquare(b) && IsDir(d)
    decreases Reach(b, o) - i
  {
    var s := Step(o, d, i);
    if !IsValidCoord(b, s.row, s.col) || b[s.row][s.col] == 0 then None
    else if b[s.row][s.col] == p then Some(i)
    else
      StepBound(b, o, d, i);
      Scan(b, o, d, p, i + 1)
  }

  /** The value of has_tile_to_flip (None in the source reads as false). */
  function HasFlip(b: Board, o: Coord, d: Dir, p: int): bool
    requires IsSquare(b) && IsDir(d)
  {
    IsPlayer(p) && InBoard(b, o) &&
    match Scan(b, o, d, p, 1)
    case Some(k) => k > 1
    case None => false
  }

  lemma {:induction false} ScanSound(b: Board, o: Coord, d: Dir, p: int, i: nat, k: int)
    requires IsSquare(b) && IsDir(d) && Scan(b, o, d, p, i) == Some(k)
    ensures i <= k && IsOwn(b, Step(o, d, k), p)
    ensures forall j :: i <= j < k ==> IsOther(b, Step(o, d, j), p)
    decreases Reach(b, o) - i
  {
    var s := Step(o, d, i);
    if b[s.row][s.col] != p {
      assert IsOther(b, s, p);
      StepBound(b, o, d, i);
      ScanSound(b, o, d, p, i + 1, k);
    }
  }

  lemma {:induction false} ScanComplete(b: Board, o: Coord, d: Dir, p: int, i: nat, k: int)
    requires IsSquare(b) && IsDir(d) && p != 0 && i <= k && IsOwn(b, Step(o, d, k), p)
    requires forall j :: i <= j < k ==> IsOther(b, Step(o, d, j), p)
    ensures Scan(b, o, d, p, i) == Some(k)
    decreases Reach(b, o) - i
  {
    if i < k {
      assert IsOther(b, Step(o, d, i), p);
      StepBound(b, o, d, i);
      ScanComplete(b, o, d, p, i + 1, k);
    }
  }

  /** A flippable line of `k` tiles: steps 1..k are opponent tiles on the
      board and step k+1 is `p`'s. */
  predicate FlippableRun(b: Board, o: Coord, d: Dir, p: int, k: int)
    requires IsSquare(b)
  {
    k >= 1 && (forall j :: 1 <= j <= k ==> IsOther(b, Step(o, d, j), p)) && IsOwn(b, Step(o, d, k + 1), p)
  }

  /** has_tile_to_flip holds exactly when the player is ±1, the origin is on
      the board and the ray holds a flippable line. */
  lemma HasFlipChar(b: Board, o: Coord, d: Dir, p: int)
    requires IsSquare(b) && IsDir(d)
    ensures HasFlip(b, o, d, p) <==> IsPlayer(p) && InBoard(b, o) && exists k :: FlippableRun(b, o, d, p, k)
  {
    if IsPlayer(p) && InBoard(b, o) {
      match Scan(b, o, d, p, 1)
      case Some(k) =>
        ScanSound(b, o, d, p, 1, k);
        if k > 1 {
          assert FlippableRun(b, o, d, p, k - 1);
        }
      case None =>
        if exists n :: FlippableRun(b, o, d, p, n) {
          var n :| FlippableRun(b, o, d, p, n);
          ScanComplete(b, o, d, p, 1, n + 1);
        }
    }
  }

  /** has_tile_to_flip: steps along the ray with a counter, as the source does. */
  method HasTileToFlip(b: Board, o: Coord, d: Dir, p: int) returns (r: bool)
    requires IsSquare(b) && IsDir(d)
    ensures r == HasFlip(b, o, d, p)
  {
    var i := 1;
    if IsPlayer(p) && IsValidCoord(b, o.row, o.col) {
      while true
        invariant i >= 1 && Scan(b, o, d, p, i) == Scan(b, o, d, p, 1)
        decreases Reach(b, o) - i
      {
        var row := o.row + d.dr * i;
        var col := o.col + d.dc * i;
        if !IsValidCoord(b, row, col) || b[row][col] == 0 {
          return false;
        } else if b[row][col] == p {
          break;
        } else {
          StepBound(b, o, d, i);
          i := i + 1;
        }
      }
      return i > 1;
    }
    return false;
  }

  /** is_legal_action: the coordinate is on the board, the cell is empty and
      some direction of MOVE_DIRS holds a flippable line. */
  predicate IsLegalAction(b: Board, m: Coord, p: int)
    requires IsSquare(b)
  {
    InBoard(b, m) && At(b, m) == 0 && exists k :: 0 <= k < |MoveDirs| && HasFlip(b, m, MoveDirs[k], p)
  }

  /** A legal move is an empty cell from which some compass direction holds a
      flippable line of the player's. */
  lemma LegalActionChar(b: Board, m: Coord, p: int)
    requires IsSquare(b)
    ensures IsLegalAction(b, m, p) <==>
              IsPlayer(p) && InBoard(b, m) && At(b, m) == 0 &&
              exists k, n :: 0 <= k < |MoveDirs| && FlippableRun(b, m, MoveDirs[k], p, n)
  {
    MoveDirsAreDirs();
    forall k | 0 <= k < |MoveDirs|
      ensures HasFlip(b, m, MoveDirs[k], p) <==>
                IsPlayer(p) && InBoard(b, m) && exists n :: FlippableRun(b, m, MoveDirs[k], p, n)
    {
      HasFlipChar(b, m, MoveDirs[k], p);
    }
  }

  /** Strict row-major order on coordinates. */
  predicate Before(a: Coord, b: Coord) {
    a.row < b.row || (a.row == b.row && a.col < b.col)
  }

  /** The legal cells (r, 0) .. (r, c-1) of player p, in column order. */
  function LegalRow(b: Board, p: int, r: int, c: nat): seq<Coord>
    requires IsSquare(b)
  {
    if c == 0 then []
    else LegalRow(b, p, r, c - 1) + (if IsLegalAction(b, Coord(r, c - 1), p) then [Coord(r, c - 1)] else [])
  }

  /** The legal cells of rows 0 .. r-1, row-major. */
  function LegalRows(b: Board, p: int, r: nat): seq<Coord>
    requires IsSquare(b)
  {
    if r == 0 then [] else LegalRows(b, p, r - 1) + LegalRow(b, p, r - 1, |b|)
  }

  /** The list get_legal_moves builds. */
  function LegalMoves(b: Board, p: int): seq<Coord>
    requires IsSquare(b)
  {
    LegalRows(b, p, |b|)
  }

  predicate Increasing(ms: seq<Coord>) {
    forall i, j :: 0 <= i < j < |ms| ==> Before(ms[i], ms[j])
  }

  lemma {:induction false} LegalRowHas(b: Board, p: int, r: int, c: nat, m: Coord)
    requires IsSquare(b)
    ensures m in LegalRow(b, p, r, c) <==> m.row == r && 0 <= m.col < c && IsLegalAction(b, m, p)
  {
    if c > 0 {
      LegalRowHas(b, p, r, c - 1, m);
      var prev := LegalRow(b, p, r, c - 1);
      var tail := if IsLegalAction(b, Coord(r, c - 1), p) then [Coord(r, c - 1)] else [];
      assert m in prev + tail <==> m in prev || m in tail;
    }
  }

  lemma {:induction false} LegalRowsHas(b: Board, p: int, r: nat, m: Coord)
    requires IsSquare(b)
    ensures m in LegalRows(b, p, r) <==> 0 <= m.row < r && 0 <= m.col < |b| && IsLegalAction(b, m, p)
  {
    if r > 0 {
      LegalRowsHas(b, p, r - 1, m);
      LegalRowHas(b, p, r - 1, |b|, m);
      var prev := LegalRows(b, p, r - 1);
      var row := LegalRow(b, p, r - 1, |b|);
      assert m in prev + row <==> m in prev || m in row;
    }
  }

  /** A cell LegalRow lists lies in row r, left of column c. */
  lemma {:induction false} LegalRowBounds(b: Board, p: int, r: int, c: nat, m: Coord)
    requires IsSquare(b)
    ensures m in LegalRow(b, p, r, c) ==> m.row == r && 0 <= m.col < c
  {
    if c > 0 {
      LegalRowBounds(b, p, r, c - 1, m);
      var prev := LegalRow(b, p, r, c - 1);
      var tail := if IsLegalAction(b, Coord(r, c - 1), p) then [Coord(r, c - 1)] else [];
      assert m in prev + tail ==> m in prev || m in tail;
    }
  }

  /** A cell LegalRows lists lies above row r. */
  lemma {:induction false} LegalRowsBounds(b: Board, p: int, r: nat, m: Coord)
    requires IsSquare(b)
    ensures m in LegalRows(b, p, r) ==> 0 <= m.row < r
  {
    if r > 0 {
      LegalRowsBounds(b, p, r - 1, m);
      LegalRowBounds(b, p, r - 1, |b|, m);
      var prev := LegalRows(b, p, r - 1);
      var row := LegalRow(b, p, r - 1, |b|);
      assert m in prev + row ==> m in prev || m in row;
    }
  }

  lemma {:induction false} LegalRowIncreasing(b: Board, p: int, r: int, c: nat)
    requires IsSquare(b)
    ensures Increasing(LegalRow(b, p, r, c))
  {
    if c > 0 {
      LegalRowIncreasing(b, p, r, c - 1);
      var prev := LegalRow(b, p, r, c - 1);
      var tail := if IsLegalAction(b, Coord(r, c - 1), p) then [Coord(r, c - 1)] else [];
      forall x, y | x in prev && y in tail
        ensures Before(x, y)
      {
        LegalRowBounds(b, p, r, c - 1, x);
      }
      ConcatIncreasing(prev, tail);
    }
  }

  lemma {:induction false} LegalRowsIncreasing(b: Board, p: int, r: nat)
    requires IsSquare(b)
    ensures Increasing(LegalRows(b, p, r))
  {
    if r > 0 {
      LegalRowsIncreasing(b, p, r - 1);
      LegalRowIncreasing(b, p, r - 1, |b|);
      var prev := LegalRows(b, p, r - 1);
      var row := LegalRow(b, p, r - 1, |b|);
      forall x, y | x in prev && y in row
        ensures Before(x, y)
      {
        LegalRowsBounds(b, p, r - 1, x);
        LegalRowBounds(b, p, r - 1, |b|, y);
      }
      ConcatIncreasing(prev, row);
    }
  }

  lemma ConcatIncreasing(xs: seq<Coord>, ys: seq<Coord>)
    requires Increasing(xs) && Increasing(ys)
    requires forall x, y :: x in xs && y in ys ==> Before(x, y)
    ensures Increasing(xs + ys)
  {
    forall i, j | 0 <= i < j < |xs + ys|
      ensures Before((xs + ys)[i], (xs + ys)[j])
    {
      if j < |xs| {
        assert (xs + ys)[i] == xs[i] && (xs + ys)[j] == xs[j];
      } else if i >= |xs| {
        assert (xs + ys)[i] == ys[i - |xs|] && (xs + ys)[j] == ys[j - |xs|];
      } else {
        assert (xs + ys)[i] == xs[i] && xs[i] in xs;
        assert (xs + ys)[j] == ys[j - |xs|] && ys[j - |xs|] in ys;
      }
    }
  }

  /** get_legal_moves is sound, complete and strictly increasing in
      row-major order (hence free of duplicates). */
  lemma LegalMovesSpec(b: Board, p: int)
    requires IsSquare(b)
    ensures forall m :: m in LegalMoves(b, p) <==> IsLegalAction(b, m, p)
    ensures Increasing(LegalMoves(b, p))
  {
    forall m
      ensures m in LegalMoves(b, p) <==> IsLegalAction(b, m, p)
    {
      LegalRowsHas(b, p, |b|, m);
    }
    LegalRowsIncreasing(b, p, |b|);
  }

  /** get_legal_moves: a nested row/column scan appending legal cells. */
  method GetLegalMoves(b: Board, p: int) returns (moves: seq<Coord>)
    requires IsSquare(b)
    ensures moves == LegalMoves(b, p)
    ensures forall m :: m in moves <==> IsLegalAction(b, m, p)
    ensures Increasing(moves)
  {
    moves := [];
    var size := |b|;
    for row := 0 to size
      invariant moves == LegalRows(b, p, row)
    {
      for col := 0 to size
        invariant moves == LegalRows(b, p, row) + LegalRow(b, p, row, col)
      {
        if IsLegalAction(b, Coord(row, col), p) {
          moves := moves + [Coord(row, col)];
        }
      }
    }
    LegalMovesSpec(b, p);
  }

  // ---------------------------------------------------------------------
  // Move application (make_move)

  lemma UnitMul(a: int, j: int)
    requires -1 <= a <= 1
    ensures a * j == (if a == 1 then j else if a == -1 then -j else 0)
  {
  }

  /** Position of `s` along the ray from `o` in direction `d` (meaningful
      when OnRay holds). */
  function RayPos(o: Coord, d: Dir, s: Coord): int {
    if d.dr != 0 then (s.row - o.row) * d.dr else (s.col - o.col) * d.dc
  }

  predicate OnRay(o: Coord, d: Dir, s: Coord) {
    Step(o, d, RayPos(o, d, s)) == s
  }

  /** Every cell of a ray has exactly one position on it. */
  lemma RayPosOfStep(o: Coord, d: Dir, j: int)
    requires IsDir(d)
    ensures RayPos(o, d, Step(o, d, j)) == j && OnRay(o, d, Step(o, d, j))
  {
    UnitMul(d.dr, j);
    UnitMul(d.dc, j);
    UnitMul(d.dr, d.dr * j);
    UnitMul(d.dc, d.dc * j);
  }

  /** Rays leaving one origin in two different directions share no cell. */
  lemma RaysDisjoint(o: Coord, d1: Dir, j1: int, d2: Dir, j2: int)
    requires IsDir(d1) && IsDir(d2) && j1 >= 1 && j2 >= 1 && Step(o, d1, j1) == Step(o, d2, j2)
    ensures d1 == d2 && j1 == j2
  {
    UnitMul(d1.dr, j1);
    UnitMul(d1.dc, j1);
    UnitMul(d2.dr, j2);
    UnitMul(d2.dc, j2);
  }

  lemma MoveDirsDistinct()
    ensures forall i, k :: 0 <= i < k < |MoveDirs| ==> MoveDirs[i] != MoveDirs[k]
  {
  }

  predicate IsCell(b: Board, s: Coord, v: int)
    requires IsSquare(b)
  {
    InBoard(b, s) && At(b, s) == v
  }

  /** Step j of ray d is flipped when p is placed at o: the ray holds a
      flippable line and steps 1..j all hold -p. */
  predicate FlipsAt(b: Board, o: Coord, p: int, d: Dir, j: int)
    requires IsSquare(b) && IsDir(d)
  {
    HasFlip(b, o, d, p) && j >= 1 && forall i :: 1 <= i <= j ==> IsCell(b, Step(o, d, i), -p)
  }

  predicate OnRun(b: Board, o: Coord, p: int, d: Dir, s: Coord)
    requires IsSquare(b) && IsDir(d)
  {
    OnRay(o, d, s) && FlipsAt(b, o, p, d, RayPos(o, d, s))
  }

  /** `s` is flipped along one of the first k directions of MOVE_DIRS. */
  predicate FlippedBy(b: Board, o: Coord, p: int, k: nat, s: Coord)
    requires IsSquare(b) && k <= |MoveDirs|
  {
    MoveDirsAreDirs();
    k > 0 && (FlippedBy(b, o, p, k - 1, s) || OnRun(b, o, p, MoveDirs[k - 1], s))
  }

  /** The value of cell `s` once p is placed at o and the first k
      directions are flipped. */
  function PartialCell(b: Board, o: Coord, p: int, k: nat, s: Coord): int
    requires IsSquare(b) && k <= |MoveDirs| && InBoard(b, s)
  {
    if s == o then p else if FlippedBy(b, o, p, k, s) then p else At(b, s)
  }

  predicate IsMovedUpTo(b: Board, o: Coord, p: int, k: nat, nb: Board)
    requires IsSquare(b) && k <= |MoveDirs|
  {
    |nb| == |b| && IsSquare(nb) &&
    forall r, c :: 0 <= r < |b| && 0 <= c < |b| ==> nb[r][c] == PartialCell(b, o, p, k, Coord(r, c))
  }

  /** The board make_move returns, cell by cell: the placed cell holds p,
      every cell on a flippable line's run of -p tiles holds p, and every
      other cell is as before. */
  function Moved(b: Board, o: Coord, p: int): (nb: Board)
    requires IsSquare(b)
  {
    seq(|b|, r requires 0 <= r < |b| =>
      seq(|b|, c requires 0 <= c < |b| => PartialCell(b, o, p, |MoveDirs|, Coord(r, c))))
  }

  lemma MovedIs(b: Board, o: Coord, p: int, nb: Board)
    requires IsSquare(b) && IsMovedUpTo(b, o, p, |MoveDirs|, nb)
    ensures nb == Moved(b, o, p)
  {
    var m := Moved(b, o, p);
    forall r | 0 <= r < |b| ensures nb[r] == m[r] {
    }
  }

  /** A cell of ray k (step j >= 1) is untouched by the placement and by
      flips along the earlier directions. */
  lemma RayCellUnflipped(b: Board, o: Coord, p: int, k: nat, j: int)
    requires IsSquare(b) && k < |MoveDirs| && j >= 1 && InBoard(b, Step(o, MoveDirs[k], j))
    ensures PartialCell(b, o, p, k, Step(o, MoveDirs[k], j)) == At(b, Step(o, MoveDirs[k], j))
  {
    MoveDirsAreDirs();
    MoveDirsDistinct();
    var s := Step(o, MoveDirs[k], j);
    if s == o {
      RaysDisjoint(o, MoveDirs[k], j, MoveDirs[k], j);
      UnitMul(MoveDirs[k].dr, j);
      UnitMul(MoveDirs[k].dc, j);
    }
    NotFlippedByEarlier(b, o, p, k, k, j);
  }

  lemma {:induction false} NotFlippedByEarlier(b: Board, o: Coord, p: int, i: nat, k: nat, j: int)
    requires IsSquare(b) && i <= k < |MoveDirs| && j >= 1
    ensures !FlippedBy(b, o, p, i, Step(o, MoveDirs[k], j))
  {
    MoveDirsAreDirs();
    MoveDirsDistinct();
    if i > 0 {
      NotFlippedByEarlier(b, o, p, i - 1, k, j);
      var d := MoveDirs[i - 1];
      var s := Step(o, MoveDirs[k], j);
      if OnRun(b, o, p, d, s) {
        RaysDisjoint(o, d, RayPos(o, d, s), MoveDirs[k], j);
      }
    }
  }

  /** The scan only reads the ray from step i on. */
  lemma {:induction false} ScanFrame(b1: Board, b2: Board, o: Coord, d: Dir, p: int, i: nat)
    requires IsSquare(b1) && IsSquare(b2) && |b1| == |b2| && IsDir(d)
    requires forall j :: j >= i && InBoard(b1, Step(o, d, j)) ==> At(b1, Step(o, d, j)) == At(b2, Step(o, d, j))
    ensures Scan(b1, o, d, p, i) == Scan(b2, o, d, p, i)
    decreases Reach(b1, o) - i
  {
    var s := Step(o, d, i);
    if InBoard(b1, s) && At(b1, s) != 0 && At(b1, s) != p {
      StepBound(b1, o, d, i);
      ScanFrame(b1, b2, o, d, p, i + 1);
    }
  }

  /** Once the loop of make_move stops at step j of a ray with a flippable
      line, the run it flipped is exactly steps 1..j-1. */
  lemma RunEnds(b: Board, o: Coord, p: int, d: Dir, j: int, s: Coord)
    requires IsSquare(b) && IsDir(d) && HasFlip(b, o, d, p) && j >= 1
    requires MinusRun(b, o, d, p, j)
    requires !IsCell(b, Step(o, d, j), -p)
    ensures OnRun(b, o, p, d, s) <==> OnRay(o, d, s) && 1 <= RayPos(o, d, s) < j
  {
  }

  /** The board while make_move walks ray k: steps 1..j-1 of the ray are
      already p, the rest is as after the first k directions. */
  predicate RunDone(b: Board, o: Coord, p: int, k: nat, j: int, nb: Board)
    requires IsSquare(b) && k < |MoveDirs|
  {
    |nb| == |b| && IsSquare(nb) &&
    forall r, c :: 0 <= r < |b| && 0 <= c < |b| ==>
      nb[r][c] == if OnRay(o, MoveDirs[k], Coord(r, c)) && 1 <= RayPos(o, MoveDirs[k], Coord(r, c)) < j then p
                  else PartialCell(b, o, p, k, Coord(r, c))
  }

  lemma RunDoneStep(b: Board, o: Coord, p: int, k: nat, j: int, nb: Board)
    requires IsSquare(b) && k < |MoveDirs| && j >= 1 && RunDone(b, o, p, k, j, nb)
    requires InBoard(b, Step(o, MoveDirs[k], j))
    ensures var s := Step(o, MoveDirs[k], j);
            RunDone(b, o, p, k, j + 1, nb[s.row := nb[s.row][s.col := p]])
  {
    var d := MoveDirs[k];
    var s := Step(o, d, j);
    var nb' := nb[s.row := nb[s.row][s.col := p]];
    forall r | 0 <= r < |nb'|
      ensures |nb'[r]| == |nb'|
    {
      if r != s.row {
        assert nb'[r] == nb[r];
      }
    }
    forall r, c | 0 <= r < |b| && 0 <= c < |b|
      ensures nb'[r][c] == if OnRay(o, d, Coord(r, c)) && 1 <= RayPos(o, d, Coord(r, c)) < j + 1 then p
                           else PartialCell(b, o, p, k, Coord(r, c))
    {
      RunDoneCell(b, o, p, k, j, nb, r, c);
    }
  }

  /** One cell of the board after the j-th cell of the run is set. */
  lemma RunDoneCell(b: Board, o: Coord, p: int, k: nat, j: int, nb: Board, r: int, c: int)
    requires IsSquare(b) && k < |MoveDirs| && j >= 1 && RunDone(b, o, p, k, j, nb)
    requires InBoard(b, Step(o, MoveDirs[k], j)) && 0 <= r < |b| && 0 <= c < |b|
    ensures var d := MoveDirs[k];
            var s := Step(o, d, j);
            nb[s.row := nb[s.row][s.col := p]][r][c] ==
              if OnRay(o, d, Coord(r, c)) && 1 <= RayPos(o, d, Coord(r, c)) < j + 1 then p
              else PartialCell(b, o, p, k, Coord(r, c))
  {
    MoveDirsAreDirs();
    var d := MoveDirs[k];
    var s := Step(o, d, j);
    RayPosOfStep(o, d, j);
    if Coord(r, c) != s {
      assert !(OnRay(o, d, Coord(r, c)) && RayPos(o, d, Coord(r, c)) == j);
    }
  }

  lemma RunDoneAt(b: Board, o: Coord, p: int, k: nat, j: int, nb: Board)
    requires IsSquare(b) && k < |MoveDirs| && j >= 1 && RunDone(b, o, p, k, j, nb)
    requires InBoard(b, Step(o, MoveDirs[k], j))
    ensures At(nb, Step(o, MoveDirs[k], j)) == At(b, Step(o, MoveDirs[k], j))
  {
    MoveDirsAreDirs();
    RayPosOfStep(o, MoveDirs[k], j);
    RayCellUnflipped(b, o, p, k, j);
  }

  lemma RunDoneFinish(b: Board, o: Coord, p: int, k: nat, K: int, j: int, nb: Board)
    requires IsSquare(b) && k < |MoveDirs| && FlipWalk(b, o, p, k, K, j, nb)
    requires !IsCell(b, Step(o, MoveDirs[k], j), -p)
    ensures IsMovedUpTo(b, o, p, k + 1, nb)
  {
    MoveDirsAreDirs();
    var d := MoveDirs[k];
    forall r, c | 0 <= r < |b| && 0 <= c < |b|
      ensures nb[r][c] == PartialCell(b, o, p, k + 1, Coord(r, c))
    {
      var s := Coord(r, c);
      RunEnds(b, o, p, d, j, s);
      if OnRay(o, d, s) && 1 <= RayPos(o, d, s) {
        RayCellUnflipped(b, o, p, k, RayPos(o, d, s));
        UnitMul(d.dr, RayPos(o, d, s));
        UnitMul(d.dc, RayPos(o, d, s));
        assert s != o;
      }
      assert FlippedBy(b, o, p, k + 1, s) == (FlippedBy(b, o, p, k, s) || OnRun(b, o, p, d, s));
    }
  }

  /** Steps 1..j-1 of the ray all hold -p. */
  predicate MinusRun(b: Board, o: Coord, d: Dir, p: int, j: int)
    requires IsSquare(b)
  {
    forall i :: 1 <= i < j ==> IsCell(b, Step(o, d, i), -p)
  }

  lemma MinusRunExtend(b: Board, o: Coord, d: Dir, p: int, j: int)
    requires IsSquare(b) && MinusRun(b, o, d, p, j) && IsCell(b, Step(o, d, j), -p)
    ensures MinusRun(b, o, d, p, j + 1)
  {
  }

  /** The walk along ray k, whose flippable line ends at step K, has
      reached step j: steps 1..j-1 held -p in b and now hold p, and step j
      is on the board and still as in b. */
  predicate FlipWalk(b: Board, o: Coord, p: int, k: nat, K: int, j: int, nb: Board)
    requires IsSquare(b) && k < |MoveDirs|
  {
    HasFlip(b, o, MoveDirs[k], p) && Scan(b, o, MoveDirs[k], p, 1) == Some(K) &&
    1 <= j <= K && InBoard(b, Step(o, MoveDirs[k], j)) &&
    MinusRun(b, o, MoveDirs[k], p, j) && RunDone(b, o, p, k, j, nb) &&
    At(nb, Step(o, MoveDirs[k], j)) == At(b, Step(o, MoveDirs[k], j))
  }

  /** The walk along a ray with a flippable line starts at its first step. */
  lemma WalkStart(b: Board, o: Coord, p: int, k: nat, nb: Board)
    requires IsSquare(b) && k < |MoveDirs| && HasFlip(b, o, MoveDirs[k], p) && IsMovedUpTo(b, o, p, k, nb)
    ensures FlipWalk(b, o, p, k, Scan(b, o, MoveDirs[k], p, 1).value, 1, nb)
  {
    MoveDirsAreDirs();
    ScanSound(b, o, MoveDirs[k], p, 1, Scan(b, o, MoveDirs[k], p, 1).value);
    assert RunDone(b, o, p, k, 1, nb);
    RunDoneAt(b, o, p, k, 1, nb);
  }

  /** One iteration of the inner loop of make_move keeps its invariant. */
  lemma FlipRunStep(b: Board, o: Coord, p: int, k: nat, K: int, j: int, nb: Board)
    requires IsSquare(b) && k < |MoveDirs| && FlipWalk(b, o, p, k, K, j, nb)
    requires At(nb, Step(o, MoveDirs[k], j)) == -p
    ensures var d, s := MoveDirs[k], Step(o, MoveDirs[k], j);
            FlipWalk(b, o, p, k, K, j + 1, nb[s.row := nb[s.row][s.col := p]]) &&
            Step(o, d, j + 1) == Coord(s.row + d.dr, s.col + d.dc)
  {
    FlipStepParts(b, o, p, k, K, j, nb);
  }

  /** FlipRunStep, part by part. */
  lemma FlipStepParts(b: Board, o: Coord, p: int, k: nat, K: int, j: int, nb: Board)
    requires IsSquare(b) && k < |MoveDirs| && HasFlip(b, o, MoveDirs[k], p)
    requires Scan(b, o, MoveDirs[k], p, 1) == Some(K)
    requires 1 <= j <= K && InBoard(b, Step(o, MoveDirs[k], j))
    requires MinusRun(b, o, MoveDirs[k], p, j) && RunDone(b, o, p, k, j, nb)
    requires At(nb, Step(o, MoveDirs[k], j)) == At(b, Step(o, MoveDirs[k], j)) == -p
    ensures var d, s := MoveDirs[k], Step(o, MoveDirs[k], j);
            var nb' := nb[s.row := nb[s.row][s.col := p]];
            j < K && InBoard(b, Step(o, d, j + 1)) && MinusRun(b, o, d, p, j + 1) &&
            RunDone(b, o, p, k, j + 1, nb') &&
            At(nb', Step(o, d, j + 1)) == At(b, Step(o, d, j + 1)) &&
            Step(o, d, j + 1) == Coord(s.row + d.dr, s.col + d.dc)
  {
    MoveDirsAreDirs();
    var d := MoveDirs[k];
    ScanSound(b, o, d, p, 1, K);
    MinusRunExtend(b, o, d, p, j);
    assert IsOwn(b, Step(o, d, K), p) && IsPlayer(p);
    assert j < K;
    if j + 1 < K {
      assert IsOther(b, Step(o, d, j + 1), p);
    } else {
      assert Step(o, d, j + 1) == Step(o, d, K);
    }
    RunDoneStep(b, o, p, k, j, nb);
    StepNext(o, d, j);
    var s := Step(o, d, j);
    RunDoneAt(b, o, p, k, j + 1, nb[s.row := nb[s.row][s.col := p]]);
  }

  /** The inner loop of make_move on ray k, which has a flippable line of
      K - 1 tiles: it starts where WalkStart puts it (the board holds the
      first k directions' flips) and leaves the first k + 1 flipped. */
  method FlipRun(ghost b: Board, o: Coord, p: int, k: nat, ghost K: int, nb0: Board) returns (nb: Board)
    requires IsSquare(b) && k < |MoveDirs| && InBoard(b, o)
    requires FlipWalk(b, o, p, k, K, 1, nb0)
    ensures IsMovedUpTo(b, o, p, k + 1, nb)
  {
    MoveDirsAreDirs();
    var d := MoveDirs[k];
    nb := nb0;
    var row, col := o.row + d.dr, o.col + d.dc;
    ghost var j := 1;
    while nb[row][col] == -p
      invariant FlipWalk(b, o, p, k, K, j, nb)
      invariant Coord(row, col) == Step(o, d, j)
      decreases K - j
    {
      FlipRunStep(b, o, p, k, K, j, nb);
      nb := nb[row := nb[row][col := p]];
      row, col := row + d.dr, col + d.dc;
      j := j + 1;
    }
    RunDoneFinish(b, o, p, k, K, j, nb);
  }

  /** make_move: copies the board, places the tile, then for each direction
      with a flippable line turns the run of -p tiles into p tiles. */
  method MakeMove(b: Board, o: Coord, p: int) returns (nb: Board)
    requires IsSquare(b) && InBoard(b, o)
    ensures nb == Moved(b, o, p)
  {
    MoveDirsAreDirs();
    nb := b;
    nb := nb[o.row := nb[o.row][o.col := p]];
    for k := 0 to |MoveDirs|
      invariant IsMovedUpTo(b, o, p, k, nb)
    {
      var d := MoveDirs[k];
      forall j | j >= 1 && InBoard(nb, Step(o, d, j))
        ensures At(nb, Step(o, d, j)) == At(b, Step(o, d, j))
      {
        RayCellUnflipped(b, o, p, k, j);
      }
      ScanFrame(nb, b, o, d, p, 1);
      var flip := HasTileToFlip(nb, o, d, p);
      if flip {
        WalkStart(b, o, p, k, nb);
        nb := FlipRun(b, o, p, k, Scan(b, o, d, p, 1).value, nb);
      } else {
        assert forall s :: InBoard(b, s) ==> !OnRun(b, o, p, d, s);
      }
    }
    MovedIs(b, o, p, nb);
  }

  // ---------------------------------------------------------------------
  // Counting tiles

  /** Number of cells of `row` holding v. */
  function CountRow(row: seq<int>, v: int): nat {
    if row == [] then 0 else CountRow(row[..|row| - 1], v) + (if row[|row| - 1] == v then 1 else 0)
  }

  /** Number of cells of `b` holding v, row by row. */
  function Count(b: Board, v: int): nat {
    if b == [] then 0 else Count(b[..|b| - 1], v) + CountRow(b[|b| - 1], v)
  }

  lemma CountRowNext(row: seq<int>, j: int, v: int)
    requires 0 <= j < |row|
    ensures CountRow(row[..j + 1], v) == CountRow(row[..j], v) + (if row[j] == v then 1 else 0)
  {
    assert row[..j + 1][..j] == row[..j];
  }

  lemma CountNext(b: Board, i: int, v: int)
    requires 0 <= i < |b|
    ensures Count(b[..i + 1], v) == Count(b[..i], v) + CountRow(b[i], v)
  {
    assert b[..i + 1][..i] == b[..i];
  }

  /** Empty cells: what every move uses up. */
  function Empties(b: Board): nat {
    Count(b, 0)
  }

  lemma {:induction false} CountRowUpdate(row: seq<int>, c: int, x: int, v: int)
    requires 0 <= c < |row|
    ensures CountRow(row[c := x], v) ==
              CountRow(row, v) - (if row[c] == v then 1 else 0) + (if x == v then 1 else 0)
  {
    var n := |row|;
    if c < n - 1 {
      assert row[c := x][..n - 1] == row[..n - 1][c := x];
      CountRowUpdate(row[..n - 1], c, x, v);
    } else {
      assert row[c := x][..n - 1] == row[..n - 1];
    }
  }

  /** Writing x into one cell moves that cell from one count to another. */
  lemma {:induction false} CountUpdate(b: Board, r: int, c: int, x: int, v: int)
    requires 0 <= r < |b| && 0 <= c < |b[r]|
    ensures Count(b[r := b[r][c := x]], v) ==
              Count(b, v) - (if b[r][c] == v then 1 else 0) + (if x == v then 1 else 0)
  {
    var n := |b|;
    var nb := b[r := b[r][c := x]];
    if r < n - 1 {
      assert nb[..n - 1] == b[..n - 1][r := b[r][c := x]];
      CountUpdate(b[..n - 1], r, c, x, v);
    } else {
      assert nb[..n - 1] == b[..n - 1];
      CountRowUpdate(b[r], c, x, v);
    }
  }

  predicate SameShape(a: Board, b: Board) {
    |a| == |b| && forall r :: 0 <= r < |a| ==> |a[r]| == |b[r]|
  }

  lemma {:induction false} CountRowLe(x: seq<int>, y: seq<int>, v: int, w: int)
    requires |x| == |y| && forall i :: 0 <= i < |x| && x[i] == v ==> y[i] == w
    ensures CountRow(x, v) <= CountRow(y, w)
  {
    if x != [] {
      CountRowLe(x[..|x| - 1], y[..|y| - 1], v, w);
    }
  }

  /** If every v-cell of `a` is a w-cell of `b`, `a` has no more v-cells
      than `b` has w-cells. */
  lemma {:induction false} CountLe(a: Board, b: Board, v: int, w: int)
    requires SameShape(a, b)
    requires forall r, c :: 0 <= r < |a| && 0 <= c < |a[r]| && a[r][c] == v ==> b[r][c] == w
    ensures Count(a, v) <= Count(b, w)
  {
    if a != [] {
      var n := |a|;
      CountLe(a[..n - 1], b[..n - 1], v, w);
      CountRowLe(a[n - 1], b[n - 1], v, w);
    }
  }

  lemma {:induction false} CountRowPartition(x: seq<int>)
    requires forall i :: 0 <= i < |x| ==> -1 <= x[i] <= 1
    ensures CountRow(x, -1) + CountRow(x, 0) + CountRow(x, 1) == |x|
  {
    if x != [] {
      CountRowPartition(x[..|x| - 1]);
    }
  }

  lemma {:induction false} CountPartitionRows(b: Board, n: nat)
    requires forall r, c :: 0 <= r < |b| && 0 <= c < |b[r]| ==> -1 <= b[r][c] <= 1
    requires forall r :: 0 <= r < |b| ==> |b[r]| == n
    ensures Count(b, -1) + Count(b, 0) + Count(b, 1) == |b| * n
  {
    if b != [] {
      CountPartitionRows(b[..|b| - 1], n);
      CountRowPartition(b[|b| - 1]);
    }
  }

  /** On a board of tiles every cell is counted exactly once. */
  lemma CountPartition(b: Board)
    requires IsTiles(b)
    ensures Count(b, -1) + Count(b, 0) + Count(b, 1) == |b| * |b|
  {
    CountPartitionRows(b, |b|);
  }

  lemma {:induction false} CountRowPair(x: seq<int>, v: int, w: int)
    requires v != w
    ensures CountRow(x, v) + CountRow(x, w) <= |x|
  {
    if x != [] {
      CountRowPair(x[..|x| - 1], v, w);
    }
  }

  lemma {:induction false} CountPairRows(b: Board, n: nat, v: int, w: int)
    requires v != w && forall r :: 0 <= r < |b| ==> |b[r]| == n
    ensures Count(b, v) + Count(b, w) <= |b| * n
  {
    if b != [] {
      CountPairRows(b[..|b| - 1], n, v, w);
      CountRowPair(b[|b| - 1], v, w);
      assert (|b| - 1) * n + n == |b| * n;
    }
  }

  /** Two distinct values together occupy at most every cell. */
  lemma CountPair(b: Board, v: int, w: int)
    requires IsSquare(b) && v != w
    ensures Count(b, v) + Count(b, w) <= |b| * |b|
  {
    CountPairRows(b, |b|, v, w);
  }

  // ---------------------------------------------------------------------
  // What a move does to the board

  lemma MovedShape(b: Board, o: Coord, p: int)
    requires IsSquare(b)
    ensures |Moved(b, o, p)| == |b| && IsSquare(Moved(b, o, p)) && SameShape(Moved(b, o, p), b)
    ensures IsTiles(b) && IsPlayer(p) ==> IsTiles(Moved(b, o, p))
  {
  }

  /** The cells make_move changes: the placed cell becomes p; any other
      cell that changes is on a ray with a flippable line, lies on the run of
      -p tiles that starts next to o (so no flip passes a non -p tile), and
      turns from -p into p. Conversely every cell of such a run is flipped. */
  lemma MovedCell(b: Board, o: Coord, p: int, s: Coord)
    requires IsSquare(b) && InBoard(b, s)
    ensures s == o ==> Moved(b, o, p)[s.row][s.col] == p
    ensures s != o && Moved(b, o, p)[s.row][s.col] != At(b, s) ==>
              IsPlayer(p) && At(b, s) == -p && Moved(b, o, p)[s.row][s.col] == p &&
              exists k :: 0 <= k < |MoveDirs| && HasFlip(b, o, MoveDirs[k], p) && OnRay(o, MoveDirs[k], s) &&
                          RayPos(o, MoveDirs[k], s) >= 1 && MinusRun(b, o, MoveDirs[k], p, RayPos(o, MoveDirs[k], s) + 1)
    ensures forall k, j ::
              (0 <= k < |MoveDirs| && j >= 1 && s == Step(o, MoveDirs[k], j) &&
               HasFlip(b, o, MoveDirs[k], p) && MinusRun(b, o, MoveDirs[k], p, j + 1)) ==>
              Moved(b, o, p)[s.row][s.col] == p
  {
    MoveDirsAreDirs();
    if s != o && Moved(b, o, p)[s.row][s.col] != At(b, s) {
      FlippedWitness(b, o, p, |MoveDirs|, s);
    }
    forall k, j | 0 <= k < |MoveDirs| && j >= 1 && s == Step(o, MoveDirs[k], j) &&
              HasFlip(b, o, MoveDirs[k], p) && MinusRun(b, o, MoveDirs[k], p, j + 1)
      ensures Moved(b, o, p)[s.row][s.col] == p
    {
      RayPosOfStep(o, MoveDirs[k], j);
      assert OnRun(b, o, p, MoveDirs[k], s);
      FlippedByMono(b, o, p, k + 1, |MoveDirs|, s);
    }
  }

  lemma {:induction false} FlippedWitness(b: Board, o: Coord, p: int, k: nat, s: Coord)
    requires IsSquare(b) && k <= |MoveDirs| && FlippedBy(b, o, p, k, s)
    ensures IsPlayer(p) && InBoard(b, s) && At(b, s) == -p
    ensures exists i :: 0 <= i < k && HasFlip(b, o, MoveDirs[i], p) && OnRay(o, MoveDirs[i], s) &&
                        RayPos(o, MoveDirs[i], s) >= 1 && MinusRun(b, o, MoveDirs[i], p, RayPos(o, MoveDirs[i], s) + 1)
  {
    MoveDirsAreDirs();
    if FlippedBy(b, o, p, k - 1, s) {
      FlippedWitness(b, o, p, k - 1, s);
    } else {
      var d := MoveDirs[k - 1];
      var j := RayPos(o, d, s);
      assert OnRun(b, o, p, d, s);
      assert IsCell(b, Step(o, d, j), -p);
    }
  }

  lemma {:induction false} FlippedByMono(b: Board, o: Coord, p: int, k: nat, n: nat, s: Coord)
    requires IsSquare(b) && 0 < k <= n <= |MoveDirs| && OnRun(b, o, p, MoveDirs[k - 1], s)
    ensures FlippedBy(b, o, p, n, s)
  {
    if n > k {
      FlippedByMono(b, o, p, k, n - 1, s);
    }
  }

  /** A legal move uses up exactly one empty cell. */
  lemma MovedEmpties(b: Board, o: Coord, p: int)
    requires IsSquare(b) && IsLegalAction(b, o, p)
    ensures Empties(Moved(b, o, p)) == Empties(b) - 1
  {
    var m := Moved(b, o, p);
    var b1 := b[o.row := b[o.row][o.col := p]];
    var k :| 0 <= k < |MoveDirs| && HasFlip(b, o, MoveDirs[k], p);
    assert IsPlayer(p);
    CountUpdate(b, o.row, o.col, p, 0);
    MovedShape(b, o, p);
    forall r, c | 0 <= r < |m| && 0 <= c < |m[r]|
      ensures (m[r][c] == 0 ==> b1[r][c] == 0) && (b1[r][c] == 0 ==> m[r][c] == 0)
    {
      MovedCell(b, o, p, Coord(r, c));
    }
    CountLe(m, b1, 0, 0);
    CountLe(b1, m, 0, 0);
  }

  /** A legal move flips at least one cell: the first step of a ray with a
      flippable line. */
  lemma LegalFlipsOne(b: Board, o: Coord, p: int) returns (s: Coord)
    requires IsTiles(b) && IsLegalAction(b, o, p)
    ensures InBoard(b, s) && s != o && At(b, s) == -p && Moved(b, o, p)[s.row][s.col] == p
  {
    MoveDirsAreDirs();
    var k :| 0 <= k < |MoveDirs| && HasFlip(b, o, MoveDirs[k], p);
    var d := MoveDirs[k];
    var K := Scan(b, o, d, p, 1).value;
    ScanSound(b, o, d, p, 1, K);
    s := Step(o, d, 1);
    assert IsOther(b, s, p);
    assert MinusRun(b, o, d, p, 2);
    MovedCell(b, o, p, s);
    assert s != o by { RayPosOfStep(o, d, 1); }
  }

  /** The opponent loses a tile for every flipped cell and gains none. */
  lemma MovedOpponentFewer(b: Board, o: Coord, p: int)
    requires IsTiles(b) && IsLegalAction(b, o, p)
    ensures Count(Moved(b, o, p), -p) < Count(b, -p)
  {
    var m := Moved(b, o, p);
    assert IsPlayer(p);
    MovedShape(b, o, p);
    var s := LegalFlipsOne(b, o, p);
    forall r, c | 0 <= r < |b| && 0 <= c < |b| && m[r][c] == -p
      ensures b[r][c] == -p
    {
      MovedMinus(b, o, p, Coord(r, c));
    }
    FewerOf(b, m, s, p);
  }

  /** A board m that turned cell s from -p into p, and whose -p cells are
      all -p cells of b, has fewer -p cells than b. */
  lemma FewerOf(b: Board, m: Board, s: Coord, p: int)
    requires IsSquare(b) && |m| == |b| && IsSquare(m) && InBoard(b, s) && p != 0
    requires b[s.row][s.col] == -p && m[s.row][s.col] == p
    requires forall r, c :: 0 <= r < |b| && 0 <= c < |b| && m[r][c] == -p ==> b[r][c] == -p
    ensures Count(m, -p) < Count(b, -p)
  {
    var m2 := m[s.row := m[s.row][s.col := -p]];
    CountUpdate(m, s.row, s.col, -p, -p);
    forall r, c | 0 <= r < |m2| && 0 <= c < |m2[r]| && m2[r][c] == -p
      ensures b[r][c] == -p
    {
      if Coord(r, c) != s {
        assert m[r][c] == -p;
      }
    }
    CountLe(m2, b, -p, -p);
  }

  /** A cell that holds -p after p's move held -p before. */
  lemma MovedMinus(b: Board, o: Coord, p: int, t: Coord)
    requires IsSquare(b) && InBoard(b, t) && IsPlayer(p) && Moved(b, o, p)[t.row][t.col] == -p
    ensures At(b, t) == -p
  {
    MovedCell(b, o, p, t);
  }

  /** On a board of tiles, a legal move flips k >= 1 opponent tiles: the
      mover gains 1 + k tiles and the opponent loses k. */
  lemma MovedTileCounts(b: Board, o: Coord, p: int)
    requires IsTiles(b) && IsLegalAction(b, o, p)
    ensures Count(Moved(b, o, p), -p) < Count(b, -p)
    ensures Count(Moved(b, o, p), p) == Count(b, p) + 1 + (Count(b, -p) - Count(Moved(b, o, p), -p))
  {
    var m := Moved(b, o, p);
    assert IsPlayer(p);
    MovedShape(b, o, p);
    MovedOpponentFewer(b, o, p);
    MovedEmpties(b, o, p);
    CountPartition(b);
    CountPartition(m);
    assert p == 1 || p == -1;
  }
}
