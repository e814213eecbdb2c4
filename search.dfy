// Alpha-beta minimax with a time budget: each node splits its budget evenly
// over its children and hands the time a child did not use on to the
// remaining siblings; a node whose budget has run out is scored by the
// heuristic evaluator. The wall clock is an oracle parameter.
module Search {
  import opened Rules
  import opened Evaluations

  /** Scores extended with the two infinities that seed alpha and beta. */
  datatype Ext = NegInf | Fin(n: int) | PosInf

  /** Strict order on extended scores. */
  predicate Below(a: Ext, b: Ext) {
    match a
    case NegInf => !b.NegInf?
    case Fin(x) => b.PosInf? || (b.Fin? && x < b.n)
    case PosInf => false
  }

  /** Python's max(a, b): a unless b is strictly larger. */
  function Max(a: Ext, b: Ext): Ext {
    if Below(a, b) then b else a
  }

  /** Python's min(a, b): a unless b is strictly smaller. */
  function Min(a: Ext, b: Ext): Ext {
    if Below(b, a) then b else a
  }

  /** The side that moves after p. */
  function Opponent(p: int): int {
    -p
  }

  /** The value a node of player p starts from before any child is seen. */
  function Worst(p: int): Ext {
    if p == 1 then NegInf else PosInf
  }

  /** Whether value y replaces the current best x of player p (strict). */
  predicate Better(p: int, x: Ext, y: Ext) {
    if p == 1 then Below(x, y) else Below(y, x)
  }

  /** A two-argument evaluator eval_func(state, player), defined at least
      on 8x8 boards. */
  type Eval = (Board, int) --> int

  ghost predicate Scores(eval: Eval) {
    forall b: Board, p: int :: IsStdBoard(b) ==> eval.requires(b, p)
  }

  /** Durations are non-negative reals (seconds). */
  type Duration = r: real | r >= 0.0

  /** One call of the search, as seen by the clock. */
  datatype Call = Call(state: Board, player: int, limit: real, noLegal: bool)

  /** The clock oracle: the time a call has used when it measures its own
      elapsed time just before returning. */
  type Clock = Call -> Duration

  /** Time left over from a budget once `amount` has been used, never negative. */
  function Spare(limit: real, amount: Duration): (r: real)
    ensures 0.0 <= r
    ensures 0.0 <= limit ==> r <= limit
    ensures amount <= limit ==> r + amount == limit
  {
    if amount > limit then 0.0 else limit - amount
  }

  /** What a call returns: the best move (None at a leaf or a terminal
      position), its value, the unused time, and whether a time cutoff
      scored some position with the heuristic evaluator. */
  datatype Outcome = Outcome(move: Option<Coord>, value: Ext, spare: real, cut: bool)

  /** The loop state of a node: best move and value so far, the window, the
      current time slot and whether some descendant was cut off by time. */
  datatype Progress = Progress(best: Option<Coord>, value: Ext, alpha: Ext, beta: Ext,
                               slot: real, cut: bool)

  /** The lower window bound after a child of player p returned v. */
  function NewAlpha(p: int, alpha: Ext, v: Ext): Ext {
    if p == 1 then Max(alpha, v) else alpha
  }

  /** The upper window bound after a child of player p returned v. */
  function NewBeta(p: int, beta: Ext, v: Ext): Ext {
    if p == 1 then beta else Min(beta, v)
  }

  /** The budget the next child gets: the slot plus an equal share of the
      time the previous child left over, spread over the children still to
      come; the last child's leftover is not redistributed. */
  function NextSlot(slot: real, spare: real, n: nat, i: nat): real {
    if i + 1 < n then slot + Share(spare, n - (i + 1)) else slot
  }

  /** An equal share of `spare` for each of k siblings. */
  function Share(spare: real, k: int): real
    requires k != 0
  {
    spare / k as real
  }

  /** The loop state after the i-th child (move m) of n returned `child`:
      a strictly better value replaces the best move, the window narrows
      and the leftover time is redistributed. */
  function Absorb(p: int, acc: Progress, m: Coord, child: Outcome, n: nat, i: nat): (r: Progress)
    ensures child.value.Fin? && (acc.value.Fin? || acc.value == Worst(p)) ==> r.value.Fin?
  {
    var better := Better(p, acc.value, child.value);
    Progress(if better then Some(m) else acc.best,
             if better then child.value else acc.value,
             NewAlpha(p, acc.alpha, child.value),
             NewBeta(p, acc.beta, child.value),
             NextSlot(acc.slot, child.spare, n, i),
             acc.cut || child.cut)
  }

  /** minimax(state, player, time_limit, alpha, beta, eval_func, no_legal). */
  function Search(b: Board, p: int, limit: real, alpha: Ext, beta: Ext, eval: Eval,
                  noLegal: bool, clock: Clock): (r: Outcome)
    requires IsStdBoard(b) && Scores(eval)
    ensures 0.0 <= r.spare && (0.0 <= limit ==> r.spare <= limit)
    ensures r.value.Fin?
    decreases Empties(b), if noLegal then 0 else 1, 1, 0
  {
    if limit <= 0.005 then
      Outcome(None, Fin(eval(b, p)), 0.0, true)
    else
      var moves := LegalMoves(b, p);
      if |moves| == 0 then
        if noLegal then
          Outcome(None, Fin(FinalScore(b)), Spare(limit, clock(Call(b, p, limit, noLegal))), false)
        else
          Search(b, Opponent(p), limit, alpha, beta, eval, true, clock)
      else
        var start := Progress(None, Worst(p), alpha, beta, limit / |moves| as real, false);
        var s := Children(b, p, moves, 0, eval, clock, start);
        Outcome(s.best, s.value, Spare(limit, clock(Call(b, p, limit, noLegal))), s.cut)
  }

  /** The loop over the legal moves of a node, from the i-th move on. */
  function Children(b: Board, p: int, moves: seq<Coord>, i: nat, eval: Eval, clock: Clock,
                    acc: Progress): (r: Progress)
    requires IsStdBoard(b) && Scores(eval) && moves == LegalMoves(b, p) && i <= |moves|
    ensures acc.value.Fin? || (i < |moves| && acc.value == Worst(p)) ==> r.value.Fin?
    decreases Empties(b), 0, 0, |moves| - i
  {
    if i == |moves| then acc
    else
      var m := moves[i];
      ChildBoard(b, p, moves, i);
      var child := Search(Moved(b, m, p), Opponent(p), acc.slot, acc.alpha, acc.beta, eval, false, clock);
      var next := Absorb(p, acc, m, child, |moves|, i);
      if !Below(next.alpha, next.beta) then next
      else Children(b, p, moves, i + 1, eval, clock, next)
  }

  /** A child of a legal move is again an 8x8 board, with one empty cell
      fewer. */
  lemma ChildBoard(b: Board, p: int, moves: seq<Coord>, i: nat)
    requires IsStdBoard(b) && moves == LegalMoves(b, p) && i < |moves|
    ensures InBoard(b, moves[i])
    ensures IsStdBoard(Moved(b, moves[i], p))
    ensures Empties(Moved(b, moves[i], p)) < Empties(b)
  {
    LegalMovesSpec(b, p);
    assert moves[i] in moves;
    MovedShape(b, moves[i], p);
    MovedEmpties(b, moves[i], p);
  }

  /** minimax, as a recursive procedure with a loop over the legal moves. */
  method Minimax(b: Board, p: int, limit: real, alpha: Ext, beta: Ext, eval: Eval,
                 noLegal: bool, clock: Clock)
    returns (move: Option<Coord>, value: Ext, spare: real, cut: bool)
    requires IsStdBoard(b) && Scores(eval)
    ensures Outcome(move, value, spare, cut) == Search(b, p, limit, alpha, beta, eval, noLegal, clock)
    decreases Empties(b), if noLegal then 0 else 1, 3
  {
    SearchCases(b, p, limit, alpha, beta, eval, noLegal, clock);
    if limit <= 0.005 {
      var v := eval(b, p);
      return None, Fin(v), 0.0, true;
    }
    var moves := GetLegalMoves(b, p);
    if |moves| == 0 {
      if noLegal {
        var amount := clock(Call(b, p, limit, noLegal));
        spare := if amount > limit then 0.0 else limit - amount;
        var f := EvaluateFinal(b);
        assert spare == Spare(limit, amount);
        return None, Fin(f), spare, false;
      }
      move, value, spare, cut := Minimax(b, Opponent(p), limit, alpha, beta, eval, true, clock);
      assert Outcome(move, value, spare, cut) == Search(b, Opponent(p), limit, alpha, beta, eval, true, clock);
      return;
    }
    var timeSlot := limit / |moves| as real;
    var st := Progress(None, Worst(p), alpha, beta, timeSlot, false);
    if p == 1 {
      st := MaxLoop(b, p, moves, 0, st, eval, clock);
    } else {
      st := MinLoop(b, p, moves, 0, st, eval, clock);
    }
    SearchLoopCase(b, p, limit, alpha, beta, eval, noLegal, clock);
    var amount := clock(Call(b, p, limit, noLegal));
    spare := if amount > limit then 0.0 else limit - amount;
    assert spare == Spare(limit, amount);
    return st.best, st.value, spare, st.cut;
  }

  /** The loop of a max node (player 1) from the i-th legal move on: each
      child is searched with the current slot and window, a strictly larger
      value replaces the best move, alpha rises to it, and the loop stops
      once beta <= alpha or the moves run out. */
  method MaxLoop(b: Board, p: int, moves: seq<Coord>, i: nat, st: Progress, eval: Eval, clock: Clock)
    returns (r: Progress)
    requires IsStdBoard(b) && Scores(eval) && moves == LegalMoves(b, p) && i <= |moves| && p == 1
    ensures r == Children(b, p, moves, i, eval, clock, st)
    decreases Empties(b), 0, 2, |moves| - i
  {
    if i == |moves| {
      return st;
    }
    var next := MaxStep(b, p, moves, i, st, eval, clock);
    if !Below(next.alpha, next.beta) {
      return next;
    }
    r := MaxLoop(b, p, moves, i + 1, next, eval, clock);
  }

  /** One turn of the max loop: search the child, pass on its spare time,
      keep the first strictly greater value and raise alpha to it. */
  method MaxStep(b: Board, p: int, moves: seq<Coord>, i: nat, st: Progress, eval: Eval, clock: Clock)
    returns (next: Progress)
    requires IsStdBoard(b) && Scores(eval) && moves == LegalMoves(b, p) && i < |moves| && p == 1
    ensures Below(next.alpha, next.beta) ==>
              Children(b, p, moves, i, eval, clock, st) == Children(b, p, moves, i + 1, eval, clock, next)
    ensures !Below(next.alpha, next.beta) ==> Children(b, p, moves, i, eval, clock, st) == next
    decreases Empties(b), 0, 1
  {
    var m := moves[i];
    var childMove, v, childSpare, childCut := SearchChild(b, p, moves, i, st.slot, st.alpha, st.beta, eval, clock);
    ChildrenStep(b, p, moves, i, eval, clock, st, Outcome(childMove, v, childSpare, childCut));
    var slot := Redistribute(st.slot, childSpare, |moves|, i);
    var move, value := st.best, st.value;
    if Below(value, v) {
      value, move := v, Some(m);
    }
    var alpha := Max(st.alpha, v);
    next := Progress(move, value, alpha, st.beta, slot, st.cut || childCut);
  }

  /** The loop of a min node (any other player): as for a max node, with a
      strictly smaller value replacing the best move and beta falling to it. */
  method MinLoop(b: Board, p: int, moves: seq<Coord>, i: nat, st: Progress, eval: Eval, clock: Clock)
    returns (r: Progress)
    requires IsStdBoard(b) && Scores(eval) && moves == LegalMoves(b, p) && i <= |moves| && p != 1
    ensures r == Children(b, p, moves, i, eval, clock, st)
    decreases Empties(b), 0, 2, |moves| - i
  {
    if i == |moves| {
      return st;
    }
    var next := MinStep(b, p, moves, i, st, eval, clock);
    if !Below(next.alpha, next.beta) {
      return next;
    }
    r := MinLoop(b, p, moves, i + 1, next, eval, clock);
  }

  /** One turn of the min loop: as for a max node, with the first strictly
      smaller value kept and beta lowered to it. */
  method MinStep(b: Board, p: int, moves: seq<Coord>, i: nat, st: Progress, eval: Eval, clock: Clock)
    returns (next: Progress)
    requires IsStdBoard(b) && Scores(eval) && moves == LegalMoves(b, p) && i < |moves| && p != 1
    ensures Below(next.alpha, next.beta) ==>
              Children(b, p, moves, i, eval, clock, st) == Children(b, p, moves, i + 1, eval, clock, next)
    ensures !Below(next.alpha, next.beta) ==> Children(b, p, moves, i, eval, clock, st) == next
    decreases Empties(b), 0, 1
  {
    var m := moves[i];
    var childMove, v, childSpare, childCut := SearchChild(b, p, moves, i, st.slot, st.alpha, st.beta, eval, clock);
    ChildrenStep(b, p, moves, i, eval, clock, st, Outcome(childMove, v, childSpare, childCut));
    var slot := Redistribute(st.slot, childSpare, |moves|, i);
    var move, value := st.best, st.value;
    if Below(v, value) {
      value, move := v, Some(m);
    }
    var beta := Min(st.beta, v);
    next := Progress(move, value, st.alpha, beta, slot, st.cut || childCut);
  }

  /** Searches the child of the i-th legal move with the given budget and
      window. */
  method SearchChild(b: Board, p: int, moves: seq<Coord>, i: nat, slot: real, alpha: Ext, beta: Ext,
                     eval: Eval, clock: Clock)
    returns (move: Option<Coord>, value: Ext, spare: real, cut: bool)
    requires IsStdBoard(b) && Scores(eval) && moves == LegalMoves(b, p) && i < |moves|
    ensures IsStdBoard(Moved(b, moves[i], p))
    ensures Outcome(move, value, spare, cut) ==
            Search(Moved(b, moves[i], p), Opponent(p), slot, alpha, beta, eval, false, clock)
    decreases Empties(b), 0, 0
  {
    ChildBoard(b, p, moves, i);
    var nb := MakeMove(b, moves[i], p);
    move, value, spare, cut := Minimax(nb, Opponent(p), slot, alpha, beta, eval, false, clock);
  }

  /** time_slot += time_spare / (n - (i + 1)) while children remain. */
  method Redistribute(slot: real, spare: real, n: nat, i: nat) returns (next: real)
    ensures next == NextSlot(slot, spare, n, i)
  {
    next := slot;
    if i + 1 < n {
      next := next + spare / (n - (i + 1)) as real;
    }
  }

  /** One turn of the loop over the children. */
  lemma ChildrenStep(b: Board, p: int, moves: seq<Coord>, i: nat, eval: Eval, clock: Clock, acc: Progress,
                     child: Outcome)
    requires IsStdBoard(b) && Scores(eval) && moves == LegalMoves(b, p) && i < |moves|
    requires IsStdBoard(Moved(b, moves[i], p))
    requires child == Search(Moved(b, moves[i], p), Opponent(p), acc.slot, acc.alpha, acc.beta, eval, false, clock)
    ensures var next := Absorb(p, acc, moves[i], child, |moves|, i);
            Below(next.alpha, next.beta) ==> Children(b, p, moves, i, eval, clock, acc) == Children(b, p, moves, i + 1, eval, clock, next)
    ensures var next := Absorb(p, acc, moves[i], child, |moves|, i);
            !Below(next.alpha, next.beta) ==> Children(b, p, moves, i, eval, clock, acc) == next
  {
    ChildBoard(b, p, moves, i);
  }

  /** The three ways a call ends without looping over children. */
  lemma SearchCases(b: Board, p: int, limit: real, alpha: Ext, beta: Ext, eval: Eval, noLegal: bool, clock: Clock)
    requires IsStdBoard(b) && Scores(eval)
    ensures limit <= 0.005 ==>
              Search(b, p, limit, alpha, beta, eval, noLegal, clock) == Outcome(None, Fin(eval(b, p)), 0.0, true)
    ensures limit > 0.005 && LegalMoves(b, p) == [] && noLegal ==>
              Search(b, p, limit, alpha, beta, eval, noLegal, clock) ==
              Outcome(None, Fin(FinalScore(b)), Spare(limit, clock(Call(b, p, limit, noLegal))), false)
    ensures limit > 0.005 && LegalMoves(b, p) == [] && !noLegal ==>
              Search(b, p, limit, alpha, beta, eval, noLegal, clock) == Search(b, Opponent(p), limit, alpha, beta, eval, true, clock)
  {
  }

  /** A node with a budget and legal moves returns what its loop found. */
  lemma SearchLoopCase(b: Board, p: int, limit: real, alpha: Ext, beta: Ext, eval: Eval, noLegal: bool, clock: Clock)
    requires IsStdBoard(b) && Scores(eval) && limit > 0.005 && LegalMoves(b, p) != []
    ensures var moves := LegalMoves(b, p);
            var s := Children(b, p, moves, 0, eval, clock, Progress(None, Worst(p), alpha, beta, limit / |moves| as real, false));
            Search(b, p, limit, alpha, beta, eval, noLegal, clock) == Outcome(s.best, s.value, Spare(limit, clock(Call(b, p, limit, noLegal))), s.cut)
  {
  }
}
