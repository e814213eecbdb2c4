// Properties of the time-budgeted alpha-beta search: agreement with plain
// minimax when no time cutoff fires, the move it returns, how the window
// evolves, and how the time budget is shared among the children.
module AlphaBeta {
  import opened Rules
  import opened Evaluations
  import opened Search

  /** A move and the value that backs it. */
  datatype Verdict = Verdict(move: Option<Coord>, value: Ext)

  /** Plain minimax: the recursion of minimax with neither the time cutoff
      nor pruning, and the same pass rule and strict tie-breaking. */
  function Plain(b: Board, p: int, noLegal: bool): (r: Verdict)
    requires IsStdBoard(b)
    ensures r.value.Fin?
    decreases Empties(b), if noLegal then 0 else 1, 1, 0
  {
    var moves := LegalMoves(b, p);
    if |moves| == 0 then
      if noLegal then Verdict(None, Fin(FinalScore(b)))
      else Plain(b, Opponent(p), true)
    else
      PlainLoop(b, p, moves, 0, Verdict(None, Worst(p)))
  }

  /** The loop of plain minimax over the legal moves from the i-th on. */
  function PlainLoop(b: Board, p: int, moves: seq<Coord>, i: nat, acc: Verdict): (r: Verdict)
    requires IsStdBoard(b) && moves == LegalMoves(b, p) && i <= |moves|
    ensures acc.value.Fin? || (i < |moves| && acc.value == Worst(p)) ==> r.value.Fin?
    decreases Empties(b), 0, 0, |moves| - i
  {
    if i == |moves| then acc
    else
      ChildBoard(b, p, moves, i);
      var v := Plain(Moved(b, moves[i], p), Opponent(p), false).value;
      PlainLoop(b, p, moves, i + 1, if Better(p, acc.value, v) then Verdict(Some(moves[i]), v) else acc)
  }

  /** The window bound player p raises (alpha for the max player, beta
      otherwise) and the one it is checked against. */
  function Own(p: int, alpha: Ext, beta: Ext): Ext {
    if p == 1 then alpha else beta
  }

  function Opp(p: int, alpha: Ext, beta: Ext): Ext {
    if p == 1 then beta else alpha
  }

  /** y if it is strictly better for p than x, else x. */
  function BetterOf(p: int, x: Ext, y: Ext): Ext {
    if Better(p, x, y) then y else x
  }

  /** The fail-soft guarantee of alpha-beta, for a search value r and the
      true value v under the window (alpha, beta): inside the window r is
      exact, at or below alpha it bounds v from above, at or above beta
      from below. */
  predicate FailSoft(alpha: Ext, beta: Ext, r: Ext, v: Ext) {
    (Below(alpha, r) && Below(r, beta) ==> r == v) &&
    (!Below(alpha, r) ==> !Below(r, v)) &&
    (!Below(r, beta) ==> !Below(v, r))
  }

  /** The same guarantee seen from player p: `own` is the bound p raises. */
  predicate Claims(p: int, own: Ext, opp: Ext, r: Ext, v: Ext) {
    (Better(p, own, r) && Better(p, r, opp) ==> r == v) &&
    (!Better(p, own, r) ==> !Better(p, r, v)) &&
    (!Better(p, r, opp) ==> !Better(p, v, r))
  }

  lemma ClaimsFor(p: int, alpha: Ext, beta: Ext, r: Ext, v: Ext)
    ensures FailSoft(alpha, beta, r, v) <==> Claims(p, Own(p, alpha, beta), Opp(p, alpha, beta), r, v)
    ensures Below(alpha, r) && Below(r, beta) <==>
            Better(p, Own(p, alpha, beta), r) && Better(p, r, Opp(p, alpha, beta))
    ensures Below(alpha, beta) <==> Better(p, Own(p, alpha, beta), Opp(p, alpha, beta))
  {
  }

  /** `Better(p, ., .)` is a strict total order. */
  lemma BetterOrder(p: int, x: Ext, y: Ext, z: Ext)
    ensures !Better(p, x, x)
    ensures x != y ==> Better(p, x, y) || Better(p, y, x)
    ensures Better(p, x, y) && Better(p, y, z) ==> Better(p, x, z)
    ensures Better(p, x, y) && !Better(p, z, y) ==> Better(p, x, z)
    ensures !Better(p, y, x) && Better(p, y, z) ==> Better(p, x, z)
    ensures !Better(p, x, y) && !Better(p, y, z) ==> !Better(p, x, z)
  {
  }

  /** The loop state of an alpha-beta node against the plain loop state:
      p's own bound is the better of its initial value and the best value
      so far; the other bound has not moved; a best value that has not
      beaten the initial own bound is no worse than the plain one, and one
      that has is exactly the plain one, with the same move. */
  ghost predicate Tracks(p: int, own0: Ext, opp: Ext, acc: Progress, pacc: Verdict) {
    Own(p, acc.alpha, acc.beta) == BetterOf(p, own0, acc.value) &&
    Opp(p, acc.alpha, acc.beta) == opp &&
    (!Better(p, own0, acc.value) ==> !Better(p, acc.value, pacc.value)) &&
    (Better(p, own0, acc.value) ==> acc.value == pacc.value && acc.best == pacc.move)
  }

  /** One child of the loop keeps Tracks while the window stays open, and
      when it closes, the value is beyond p's opposite bound and the plain
      value is no worse. */
  lemma AbsorbTracks(p: int, own0: Ext, opp: Ext, acc: Progress, pacc: Verdict, m: Coord,
                     child: Outcome, v: Ext, n: nat, i: nat)
    requires Better(p, own0, opp) && Tracks(p, own0, opp, acc, pacc)
    requires Better(p, Own(p, acc.alpha, acc.beta), opp)
    requires Claims(p, Own(p, acc.alpha, acc.beta), opp, child.value, v)
    ensures var next := Absorb(p, acc, m, child, n, i);
            var pnext := if Better(p, pacc.value, v) then Verdict(Some(m), v) else pacc;
            Better(p, Own(p, next.alpha, next.beta), opp) ==> Tracks(p, own0, opp, next, pnext)
    ensures var next := Absorb(p, acc, m, child, n, i);
            var pnext := if Better(p, pacc.value, v) then Verdict(Some(m), v) else pacc;
            !Better(p, Own(p, next.alpha, next.beta), opp) ==>
              Better(p, own0, next.value) && !Better(p, next.value, opp) && !Better(p, pnext.value, next.value)
  {
    var r, r' := acc.value, child.value;
    BetterOrder(p, own0, r, r');
    BetterOrder(p, r, r', opp);
    BetterOrder(p, own0, r', opp);
    BetterOrder(p, r', v, pacc.value);
    BetterOrder(p, pacc.value, r, r');
  }

  /** Once some child was cut off by time, the node reports a cutoff. */
  lemma {:induction false} ChildrenCut(b: Board, p: int, moves: seq<Coord>, i: nat, eval: Eval, clock: Clock,
                                       acc: Progress)
    requires IsStdBoard(b) && Scores(eval) && moves == LegalMoves(b, p) && i <= |moves|
    ensures acc.cut ==> Children(b, p, moves, i, eval, clock, acc).cut
    decreases |moves| - i
  {
    if i < |moves| {
      ChildBoard(b, p, moves, i);
      var child := Search.Search(Moved(b, moves[i], p), Opponent(p), acc.slot, acc.alpha, acc.beta, eval, false, clock);
      var next := Absorb(p, acc, moves[i], child, |moves|, i);
      if Below(next.alpha, next.beta) {
        ChildrenCut(b, p, moves, i + 1, eval, clock, next);
      }
    }
  }

  /** The plain loop never ends worse for p than where it started. */
  lemma {:induction false} PlainLoopMono(b: Board, p: int, moves: seq<Coord>, i: nat, acc: Verdict)
    requires IsStdBoard(b) && moves == LegalMoves(b, p) && i <= |moves|
    ensures !Better(p, PlainLoop(b, p, moves, i, acc).value, acc.value)
    decreases |moves| - i
  {
    if i < |moves| {
      ChildBoard(b, p, moves, i);
      var v := Plain(Moved(b, moves[i], p), Opponent(p), false).value;
      var next := if Better(p, acc.value, v) then Verdict(Some(moves[i]), v) else acc;
      PlainLoopMono(b, p, moves, i + 1, next);
      BetterOrder(p, PlainLoop(b, p, moves, i + 1, next).value, next.value, acc.value);
      BetterOrder(p, acc.value, next.value, PlainLoop(b, p, moves, i + 1, next).value);
    } else {
      BetterOrder(p, acc.value, acc.value, acc.value);
    }
  }

  /** Alpha-beta with a time budget is fail-soft with respect to plain
      minimax whenever no time cutoff fired below it: inside the window it
      returns the plain value and the plain move, outside it a bound on
      the plain value. */
  lemma {:induction false} SearchSound(b: Board, p: int, limit: real, alpha: Ext, beta: Ext, eval: Eval,
                                       noLegal: bool, clock: Clock)
    requires IsStdBoard(b) && Scores(eval) && Below(alpha, beta)
    ensures var r, v := Search.Search(b, p, limit, alpha, beta, eval, noLegal, clock), Plain(b, p, noLegal);
            !r.cut ==> FailSoft(alpha, beta, r.value, v.value) &&
                       (Below(alpha, r.value) && Below(r.value, beta) ==> r.move == v.move)
    decreases Empties(b), if noLegal then 0 else 1, 1, 0
  {
    var moves := LegalMoves(b, p);
    if limit <= 0.005 {
    } else if |moves| == 0 {
      if !noLegal {
        SearchSound(b, Opponent(p), limit, alpha, beta, eval, true, clock);
      }
    } else {
      var own0, opp := Own(p, alpha, beta), Opp(p, alpha, beta);
      var start := Progress(None, Worst(p), alpha, beta, limit / |moves| as real, false);
      var pstart := Verdict(None, Worst(p));
      ClaimsFor(p, alpha, beta, Worst(p), Worst(p));
      BetterOrder(p, own0, Worst(p), Worst(p));
      assert Tracks(p, own0, opp, start, pstart);
      ChildrenSound(b, p, moves, 0, eval, clock, start, pstart, own0, opp);
      var s := Children(b, p, moves, 0, eval, clock, start);
      ClaimsFor(p, alpha, beta, s.value, PlainLoop(b, p, moves, 0, pstart).value);
    }
  }

  /** The loop of an alpha-beta node, against the plain loop, from a state
      that Tracks it. */
  lemma {:induction false} ChildrenSound(b: Board, p: int, moves: seq<Coord>, i: nat, eval: Eval, clock: Clock,
                                         acc: Progress, pacc: Verdict, own0: Ext, opp: Ext)
    requires IsStdBoard(b) && Scores(eval) && moves == LegalMoves(b, p) && i <= |moves|
    requires Better(p, own0, opp) && Tracks(p, own0, opp, acc, pacc)
    requires Better(p, Own(p, acc.alpha, acc.beta), opp)
    ensures var r, v := Children(b, p, moves, i, eval, clock, acc), PlainLoop(b, p, moves, i, pacc);
            !r.cut ==> Claims(p, own0, opp, r.value, v.value) &&
                       (Better(p, own0, r.value) && Better(p, r.value, opp) ==> r.best == v.move)
    decreases Empties(b), 0, 0, |moves| - i
  {
    if i == |moves| {
      BetterOrder(p, acc.value, own0, opp);
      BetterOrder(p, own0, acc.value, opp);
      BetterOrder(p, acc.value, pacc.value, acc.value);
    } else {
      var m := moves[i];
      ChildBoard(b, p, moves, i);
      var cb := Moved(b, m, p);
      var child := Search.Search(cb, Opponent(p), acc.slot, acc.alpha, acc.beta, eval, false, clock);
      var v := Plain(cb, Opponent(p), false).value;
      var next := Absorb(p, acc, m, child, |moves|, i);
      var pnext := if Better(p, pacc.value, v) then Verdict(Some(m), v) else pacc;
      ClaimsFor(p, acc.alpha, acc.beta, child.value, v);
      if child.cut {
        if Below(next.alpha, next.beta) {
          ChildrenCut(b, p, moves, i + 1, eval, clock, next);
        }
      } else {
        SearchSound(cb, Opponent(p), acc.slot, acc.alpha, acc.beta, eval, false, clock);
        AbsorbTracks(p, own0, opp, acc, pacc, m, child, v, |moves|, i);
        ClaimsFor(p, next.alpha, next.beta, next.value, next.value);
        if Below(next.alpha, next.beta) {
          ChildrenSound(b, p, moves, i + 1, eval, clock, next, pnext, own0, opp);
        } else {
          PlainLoopMono(b, p, moves, i + 1, pnext);
          var fin := PlainLoop(b, p, moves, i + 1, pnext).value;
          BetterOrder(p, fin, pnext.value, next.value);
          BetterOrder(p, next.value, pnext.value, fin);
        }
      }
    }
  }

  /** From the full window (-inf, +inf), a search in which no time cutoff
      fired returns exactly the value and the move of plain minimax. */
  lemma SearchExact(b: Board, p: int, limit: real, eval: Eval, noLegal: bool, clock: Clock)
    requires IsStdBoard(b) && Scores(eval)
    ensures var r, v := Search.Search(b, p, limit, NegInf, PosInf, eval, noLegal, clock), Plain(b, p, noLegal);
            !r.cut ==> r.value == v.value && r.move == v.move
  {
    SearchSound(b, p, limit, NegInf, PosInf, eval, noLegal, clock);
  }

  /** So when no time cutoff fires the evaluator and the clock do not matter. */
  lemma SearchIndependent(b: Board, p: int, limit1: real, limit2: real, e1: Eval, e2: Eval,
                          noLegal: bool, c1: Clock, c2: Clock)
    requires IsStdBoard(b) && Scores(e1) && Scores(e2)
    ensures var r1, r2 := Search.Search(b, p, limit1, NegInf, PosInf, e1, noLegal, c1),
                          Search.Search(b, p, limit2, NegInf, PosInf, e2, noLegal, c2);
            !r1.cut && !r2.cut ==> r1.value == r2.value && r1.move == r2.move
  {
    SearchExact(b, p, limit1, e1, noLegal, c1);
    SearchExact(b, p, limit2, e2, noLegal, c2);
  }

  /** Whether a search scores a leaf at all does not depend on the
      evaluator: until the first leaf is scored no evaluator value has been
      used, so two searches that differ only in the evaluator either both
      reach a leaf or agree on everything. */
  lemma {:induction false} SearchEvalFree(b: Board, p: int, limit: real, alpha: Ext, beta: Ext, e1: Eval, e2: Eval,
                                          noLegal: bool, clock: Clock)
    requires IsStdBoard(b) && Scores(e1) && Scores(e2)
    ensures var r1, r2 := Search.Search(b, p, limit, alpha, beta, e1, noLegal, clock),
                          Search.Search(b, p, limit, alpha, beta, e2, noLegal, clock);
            (r1.cut <==> r2.cut) && (!r1.cut ==> r1 == r2)
    decreases Empties(b), if noLegal then 0 else 1, 1, 0
  {
    if limit > 0.005 {
      var moves := LegalMoves(b, p);
      if |moves| == 0 {
        if !noLegal {
          SearchEvalFree(b, Opponent(p), limit, alpha, beta, e1, e2, true, clock);
        }
      } else {
        var start := Progress(None, Worst(p), alpha, beta, limit / |moves| as real, false);
        ChildrenEvalFree(b, p, moves, 0, e1, e2, clock, start);
      }
    }
  }

  lemma {:induction false} ChildrenEvalFree(b: Board, p: int, moves: seq<Coord>, i: nat, e1: Eval, e2: Eval,
                                            clock: Clock, acc: Progress)
    requires IsStdBoard(b) && Scores(e1) && Scores(e2) && moves == LegalMoves(b, p) && i <= |moves|
    ensures var r1, r2 := Children(b, p, moves, i, e1, clock, acc), Children(b, p, moves, i, e2, clock, acc);
            (r1.cut <==> r2.cut) && (!r1.cut ==> r1 == r2)
    decreases Empties(b), 0, 0, |moves| - i
  {
    if i < |moves| {
      ChildBoard(b, p, moves, i);
      var nb := Moved(b, moves[i], p);
      var c1 := Search.Search(nb, Opponent(p), acc.slot, acc.alpha, acc.beta, e1, false, clock);
      var c2 := Search.Search(nb, Opponent(p), acc.slot, acc.alpha, acc.beta, e2, false, clock);
      SearchEvalFree(nb, Opponent(p), acc.slot, acc.alpha, acc.beta, e1, e2, false, clock);
      var n1 := Absorb(p, acc, moves[i], c1, |moves|, i);
      var n2 := Absorb(p, acc, moves[i], c2, |moves|, i);
      if c1.cut {
        if Below(n1.alpha, n1.beta) {
          ChildrenCut(b, p, moves, i + 1, e1, clock, n1);
        }
        if Below(n2.alpha, n2.beta) {
          ChildrenCut(b, p, moves, i + 1, e2, clock, n2);
        }
      } else if Below(n1.alpha, n1.beta) {
        ChildrenEvalFree(b, p, moves, i + 1, e1, e2, clock, n1);
      }
    }
  }

  /** A child as the loop of a node examined it: its move, the value it
      returned, the time slot and window it was searched with, and the time
      it left over. */
  datatype Visit = Visit(move: Coord, value: Ext, slot: real, spare: real, alpha: Ext, beta: Ext)

  /** The children the loop of a node examines from the i-th legal move on. */
  function Visited(b: Board, p: int, moves: seq<Coord>, i: nat, eval: Eval, clock: Clock,
                   acc: Progress): (r: seq<Visit>)
    requires IsStdBoard(b) && Scores(eval) && moves == LegalMoves(b, p) && i <= |moves|
    ensures |r| <= |moves| - i
    decreases |moves| - i
  {
    if i == |moves| then []
    else
      ChildBoard(b, p, moves, i);
      var child := Search.Search(Moved(b, moves[i], p), Opponent(p), acc.slot, acc.alpha, acc.beta, eval, false, clock);
      var next := Absorb(p, acc, moves[i], child, |moves|, i);
      [Visit(moves[i], child.value, acc.slot, child.spare, acc.alpha, acc.beta)] +
      (if Below(next.alpha, next.beta) then Visited(b, p, moves, i + 1, eval, clock, next) else [])
  }

  /** The loop examines a prefix of the remaining legal moves in
      enumeration order, every one after the first with an open window, and
      stops before the end only when beta <= alpha; with a move left it
      examines at least one. */
  lemma {:induction false} VisitedOrder(b: Board, p: int, moves: seq<Coord>, i: nat, eval: Eval, clock: Clock,
                                        acc: Progress)
    requires IsStdBoard(b) && Scores(eval) && moves == LegalMoves(b, p) && i <= |moves|
    ensures var vs, r := Visited(b, p, moves, i, eval, clock, acc), Children(b, p, moves, i, eval, clock, acc);
            |vs| <= |moves| - i && (i < |moves| ==> 1 <= |vs|) &&
            (forall k :: 0 <= k < |vs| ==> vs[k].move == moves[i + k] && vs[k].value.Fin?) &&
            (forall k :: 1 <= k < |vs| ==> Below(vs[k].alpha, vs[k].beta)) &&
            (|vs| < |moves| - i ==> !Below(r.alpha, r.beta))
    decreases |moves| - i
  {
    if i < |moves| {
      ChildBoard(b, p, moves, i);
      var child := Search.Search(Moved(b, moves[i], p), Opponent(p), acc.slot, acc.alpha, acc.beta, eval, false, clock);
      var next := Absorb(p, acc, moves[i], child, |moves|, i);
      if Below(next.alpha, next.beta) {
        VisitedOrder(b, p, moves, i + 1, eval, clock, next);
      }
    }
  }

  /** r is the best of the start acc and the children vs, and r's move is
      the first of them to reach r's value strictly (or acc's move if none
      beat the start). */
  ghost predicate BestOf(p: int, vs: seq<Visit>, acc: Progress, r: Progress) {
    !Better(p, r.value, acc.value) &&
    (forall k :: 0 <= k < |vs| ==> !Better(p, r.value, vs[k].value)) &&
    ((r.value == acc.value && r.best == acc.best) ||
     exists k :: 0 <= k < |vs| && r.value == vs[k].value && r.best == Some(vs[k].move) &&
                 Better(p, acc.value, r.value) &&
                 forall j :: 0 <= j < k ==> Better(p, vs[j].value, r.value))
  }

  /** Absorbing one child v0 into acc keeps r the best of the rest. */
  lemma BestPrepend(p: int, acc: Progress, next: Progress, v0: Visit, rest: seq<Visit>, r: Progress)
    requires next.value == (if Better(p, acc.value, v0.value) then v0.value else acc.value)
    requires next.best == (if Better(p, acc.value, v0.value) then Some(v0.move) else acc.best)
    requires BestOf(p, rest, next, r)
    ensures BestOf(p, [v0] + rest, acc, r)
  {
    var vs := [v0] + rest;
    var better := Better(p, acc.value, v0.value);
    BetterOrder(p, r.value, acc.value, v0.value);
    BetterOrder(p, v0.value, acc.value, r.value);
    BetterOrder(p, acc.value, v0.value, r.value);
    forall k | 0 <= k < |vs|
      ensures !Better(p, r.value, vs[k].value)
    {
      if k > 0 {
        assert vs[k] == rest[k - 1];
      }
    }
    if r.value == next.value && r.best == next.best {
      if better {
        assert vs[0] == v0;
      }
    } else {
      var k :| 0 <= k < |rest| && r.value == rest[k].value && r.best == Some(rest[k].move) &&
               Better(p, next.value, r.value) &&
               forall j :: 0 <= j < k ==> Better(p, rest[j].value, r.value);
      assert vs[k + 1] == rest[k];
      forall j | 0 <= j < k + 1
        ensures Better(p, vs[j].value, r.value)
      {
        if j > 0 {
          assert vs[j] == rest[j - 1];
        }
      }
    }
  }

  /** The node's value is the best of its starting value and the values of
      the children it examined, and its move is the first of them to reach
      that value strictly (or the starting move if none beat the start). */
  lemma {:induction false} VisitedBest(b: Board, p: int, moves: seq<Coord>, i: nat, eval: Eval, clock: Clock,
                                       acc: Progress)
    requires IsStdBoard(b) && Scores(eval) && moves == LegalMoves(b, p) && i <= |moves|
    ensures BestOf(p, Visited(b, p, moves, i, eval, clock, acc), acc, Children(b, p, moves, i, eval, clock, acc))
    decreases |moves| - i
  {
    if i == |moves| {
      BetterOrder(p, acc.value, acc.value, acc.value);
    } else {
      ChildBoard(b, p, moves, i);
      var child := Search.Search(Moved(b, moves[i], p), Opponent(p), acc.slot, acc.alpha, acc.beta, eval, false, clock);
      var next := Absorb(p, acc, moves[i], child, |moves|, i);
      var v0 := Visit(moves[i], child.value, acc.slot, child.spare, acc.alpha, acc.beta);
      if Below(next.alpha, next.beta) {
        VisitedBest(b, p, moves, i + 1, eval, clock, next);
        BestPrepend(p, acc, next, v0, Visited(b, p, moves, i + 1, eval, clock, next),
                    Children(b, p, moves, i + 1, eval, clock, next));
      } else {
        BetterOrder(p, next.value, next.value, next.value);
        BestPrepend(p, acc, next, v0, [], next);
        assert [v0] + [] == [v0];
      }
    }
  }

  /** The window each examined child is searched with: the first gets the
      node's window; after each child the max player's alpha rises to at
      least the child's value and beta stays, and symmetrically for the
      min player; so alpha never decreases at a max node and beta never
      increases at a min node. */
  lemma {:induction false} VisitedWindow(b: Board, p: int, moves: seq<Coord>, i: nat, eval: Eval, clock: Clock,
                                         acc: Progress)
    requires IsStdBoard(b) && Scores(eval) && moves == LegalMoves(b, p) && i <= |moves|
    ensures var vs, r := Visited(b, p, moves, i, eval, clock, acc), Children(b, p, moves, i, eval, clock, acc);
            (0 < |vs| ==> vs[0].alpha == acc.alpha && vs[0].beta == acc.beta) &&
            (forall k :: 0 <= k < |vs| - 1 ==>
               (p == 1 ==> vs[k + 1].beta == vs[k].beta && !Below(vs[k + 1].alpha, vs[k].alpha) &&
                           !Below(vs[k + 1].alpha, vs[k].value)) &&
               (p != 1 ==> vs[k + 1].alpha == vs[k].alpha && !Below(vs[k].beta, vs[k + 1].beta) &&
                           !Below(vs[k].value, vs[k + 1].beta))) &&
            (p == 1 ==> r.beta == acc.beta && !Below(r.alpha, acc.alpha)) &&
            (p != 1 ==> r.alpha == acc.alpha && !Below(acc.beta, r.beta))
    decreases |moves| - i
  {
    if i < |moves| {
      ChildBoard(b, p, moves, i);
      var child := Search.Search(Moved(b, moves[i], p), Opponent(p), acc.slot, acc.alpha, acc.beta, eval, false, clock);
      var next := Absorb(p, acc, moves[i], child, |moves|, i);
      var v0 := Visit(moves[i], child.value, acc.slot, child.spare, acc.alpha, acc.beta);
      var vs := Visited(b, p, moves, i, eval, clock, acc);
      var r := Children(b, p, moves, i, eval, clock, acc);
      BetterOrder(1, acc.alpha, child.value, next.alpha);
      BetterOrder(1, child.value, acc.beta, next.beta);
      if Below(next.alpha, next.beta) {
        var rest := Visited(b, p, moves, i + 1, eval, clock, next);
        assert vs == [v0] + rest;
        VisitedWindow(b, p, moves, i + 1, eval, clock, next);
        BetterOrder(1, r.alpha, next.alpha, acc.alpha);
        BetterOrder(1, acc.beta, next.beta, r.beta);
        forall k | 0 <= k < |vs| - 1
          ensures p == 1 ==> vs[k + 1].beta == vs[k].beta && !Below(vs[k + 1].alpha, vs[k].alpha) &&
                             !Below(vs[k + 1].alpha, vs[k].value)
          ensures p != 1 ==> vs[k + 1].alpha == vs[k].alpha && !Below(vs[k].beta, vs[k + 1].beta) &&
                             !Below(vs[k].value, vs[k + 1].beta)
        {
          assert vs[k + 1] == rest[k];
          if k > 0 {
            assert vs[k] == rest[k - 1];
          }
        }
      } else {
        assert vs == [v0];
      }
    }
  }

  /** Time handed out before the examined children: the slot each got
      minus what it left over. */
  function Used(vs: seq<Visit>): real {
    if |vs| == 0 then 0.0 else (vs[0].slot - vs[0].spare) + Used(vs[1..])
  }

  /** c slots of x each, added up. */
  function Times(c: nat, x: real): real {
    if c == 0 then 0.0 else x + Times(c - 1, x)
  }

  lemma {:induction false} TimesIsMul(c: nat, x: real)
    ensures Times(c, x) == c as real * x
  {
    if c > 0 {
      TimesIsMul(c - 1, x);
    }
  }

  lemma {:induction false} TimesAtLeast(c: nat, x: real)
    requires 1 <= c && 0.0 <= x
    ensures x <= Times(c, x)
  {
    if c > 1 {
      TimesAtLeast(c - 1, x);
    }
  }

  /** One redistribution keeps the pool: the n-(i+1) remaining children's
      new slots plus the time child i used equal the n-i old slots. */
  lemma BudgetStep(slot: real, spare: real, n: nat, i: nat)
    requires i + 1 < n
    ensures Times(n - (i + 1), NextSlot(slot, spare, n, i)) + (slot - spare) == Times(n - i, slot)
  {
    var c := n - (i + 1);
    var k := c as real;
    TimesIsMul(c, NextSlot(slot, spare, n, i));
    TimesIsMul(n - i, slot);
    assert NextSlot(slot, spare, n, i) == slot + spare / k;
    assert k * (spare / k) == spare;
    assert k * (slot + spare / k) == k * slot + k * (spare / k);
    assert (n - i) as real * slot == k * slot + slot;
  }

  /** A trace of children i, i+1, ... of n in which each slot is the one
      redistributed from the previous child's slot and leftover time, and
      no leftover is negative. */
  ghost predicate Pooled(vs: seq<Visit>, n: nat, i: nat) {
    i + |vs| <= n &&
    (forall j :: 0 <= j < |vs| ==> 0.0 <= vs[j].spare) &&
    (forall j :: 0 <= j < |vs| - 1 ==> vs[j + 1].slot == NextSlot(vs[j].slot, vs[j].spare, n, i + j))
  }

  /** The children a node examines form such a trace, starting from the
      node's current slot. */
  lemma {:induction false} VisitedPooled(b: Board, p: int, moves: seq<Coord>, i: nat, eval: Eval, clock: Clock,
                                         acc: Progress)
    requires IsStdBoard(b) && Scores(eval) && moves == LegalMoves(b, p) && i <= |moves|
    ensures var vs := Visited(b, p, moves, i, eval, clock, acc);
            Pooled(vs, |moves|, i) && (0 < |vs| ==> vs[0].slot == acc.slot)
    decreases |moves| - i
  {
    if i < |moves| {
      ChildBoard(b, p, moves, i);
      var child := Search.Search(Moved(b, moves[i], p), Opponent(p), acc.slot, acc.alpha, acc.beta, eval, false, clock);
      var next := Absorb(p, acc, moves[i], child, |moves|, i);
      var v0 := Visit(moves[i], child.value, acc.slot, child.spare, acc.alpha, acc.beta);
      var vs := Visited(b, p, moves, i, eval, clock, acc);
      if Below(next.alpha, next.beta) {
        var rest := Visited(b, p, moves, i + 1, eval, clock, next);
        assert vs == [v0] + rest;
        VisitedPooled(b, p, moves, i + 1, eval, clock, next);
        PooledCons(v0, rest, |moves|, i);
      } else {
        assert vs == [v0];
      }
    }
  }

  lemma PooledCons(v0: Visit, rest: seq<Visit>, n: nat, i: nat)
    requires Pooled(rest, n, i + 1) && i + 1 + |rest| <= n && 0.0 <= v0.spare
    requires 0 < |rest| ==> rest[0].slot == NextSlot(v0.slot, v0.spare, n, i)
    ensures Pooled([v0] + rest, n, i)
  {
    var vs := [v0] + rest;
    forall j | 0 <= j < |vs|
      ensures 0.0 <= vs[j].spare
    {
      if j > 0 {
        assert vs[j] == rest[j - 1];
      }
    }
    forall j | 0 <= j < |vs| - 1
      ensures vs[j + 1].slot == NextSlot(vs[j].slot, vs[j].spare, n, i + j)
    {
      assert vs[j + 1] == rest[j];
      if j > 0 {
        assert vs[j] == rest[j - 1];
        assert i + j == i + 1 + (j - 1);
      }
    }
  }

  /** Budget conservation along a trace: if the n-i slots of the first
      child make up the pool together with the time used before it, then
      before child k the n-(i+k) slots of the children still to come plus
      the time used so far make up the same pool, and no slot is negative. */
  lemma {:induction false} TraceBudget(vs: seq<Visit>, n: nat, i: nat, used: real, total: real, k: nat)
    requires Pooled(vs, n, i) && k < |vs|
    requires 0.0 <= vs[0].slot && Times(n - i, vs[0].slot) + used == total
    ensures 0.0 <= vs[k].slot && Times(n - (i + k), vs[k].slot) + used + Used(vs[..k]) == total
    decreases k
  {
    if k == 0 {
      assert vs[..0] == [];
    } else {
      var rest := vs[1..];
      assert vs[1] == rest[0];
      assert Pooled(rest, n, i + 1) by {
        forall j | 0 <= j < |rest| - 1
          ensures rest[j + 1].slot == NextSlot(rest[j].slot, rest[j].spare, n, i + 1 + j)
        {
          assert rest[j + 1] == vs[j + 2] && rest[j] == vs[j + 1];
        }
      }
      BudgetStep(vs[0].slot, vs[0].spare, n, i);
      ShareNonneg(vs[0].spare, n - (i + 1));
      TraceBudget(rest, n, i + 1, used + (vs[0].slot - vs[0].spare), total, k - 1);
      assert vs[k] == rest[k - 1];
      assert vs[..k][1..] == rest[..k - 1];
      assert i + 1 + (k - 1) == i + k;
    }
  }

  lemma ShareNonneg(spare: real, c: nat)
    requires 0.0 <= spare && 0 < c
    ensures 0.0 <= Share(spare, c)
  {
  }

  /** The budget pool of a node with legal moves and time left: the time
      limit is split evenly, and before each examined child k the n-k
      slots of the children still to come plus the time used so far equal
      the time limit, so no child is granted more than what remains. */
  lemma SearchBudget(b: Board, p: int, limit: real, alpha: Ext, beta: Ext, eval: Eval, noLegal: bool, clock: Clock)
    requires IsStdBoard(b) && Scores(eval) && limit > 0.005 && LegalMoves(b, p) != []
    ensures var moves := LegalMoves(b, p);
            var vs := Visited(b, p, moves, 0, eval, clock,
                              Progress(None, Worst(p), alpha, beta, limit / |moves| as real, false));
            forall k :: 0 <= k < |vs| ==>
              Times(|moves| - k, vs[k].slot) + Used(vs[..k]) == limit &&
              0.0 <= vs[k].slot <= limit - Used(vs[..k])
  {
    var moves := LegalMoves(b, p);
    var start := Progress(None, Worst(p), alpha, beta, limit / |moves| as real, false);
    StartPool(limit, |moves|);
    VisitedPooled(b, p, moves, 0, eval, clock, start);
    PooledBudget(Visited(b, p, moves, 0, eval, clock, start), |moves|, limit);
  }

  /** Every slot of a trace that starts from an even split of the budget
      over n children is the even split of what is left of it. */
  lemma PooledBudget(vs: seq<Visit>, n: nat, limit: real)
    requires 0 < n && Pooled(vs, n, 0) && 0.0 <= limit / n as real && Times(n, limit / n as real) == limit
    requires 0 < |vs| ==> vs[0].slot == limit / n as real
    ensures forall k :: 0 <= k < |vs| ==>
              Times(n - k, vs[k].slot) + Used(vs[..k]) == limit &&
              0.0 <= vs[k].slot <= limit - Used(vs[..k])
  {
    forall k | 0 <= k < |vs|
      ensures Times(n - k, vs[k].slot) + Used(vs[..k]) == limit
      ensures 0.0 <= vs[k].slot <= limit - Used(vs[..k])
    {
      TraceBudget(vs, n, 0, 0.0, limit, k);
      PoolBound(n - k, vs[k].slot, Used(vs[..k]), limit);
    }
  }

  /** A slot that is one of c >= 1 equal slots of a pool is at most the pool. */
  lemma PoolBound(c: nat, slot: real, used: real, total: real)
    requires 1 <= c && 0.0 <= slot && Times(c, slot) + used == total
    ensures slot <= total - used
  {
    TimesAtLeast(c, slot);
  }

  /** An even split of the budget over n children makes up the budget. */
  lemma StartPool(limit: real, n: nat)
    requires 0.0 < limit && 0 < n
    ensures 0.0 <= limit / n as real && Times(n, limit / n as real) == limit
  {
    TimesIsMul(n, limit / n as real);
  }

  /** With time left and legal moves, minimax returns a move, and it is
      legal for the player to move; a move returned after a pass is legal
      for the opponent. */
  lemma SearchMove(b: Board, p: int, limit: real, alpha: Ext, beta: Ext, eval: Eval, noLegal: bool, clock: Clock)
    requires IsStdBoard(b) && Scores(eval)
    ensures var r := Search.Search(b, p, limit, alpha, beta, eval, noLegal, clock);
            (limit > 0.005 && LegalMoves(b, p) != [] ==> r.move.Some?) &&
            (r.move.Some? ==> IsLegalAction(b, r.move.value, p) ||
                              (LegalMoves(b, p) == [] && IsLegalAction(b, r.move.value, Opponent(p))))
  {
    SearchCases(b, p, limit, alpha, beta, eval, noLegal, clock);
    if limit > 0.005 {
      if LegalMoves(b, p) != [] {
        LoopMove(b, p, limit, alpha, beta, eval, noLegal, clock);
      } else if !noLegal {
        SearchCases(b, Opponent(p), limit, alpha, beta, eval, true, clock);
        if LegalMoves(b, Opponent(p)) != [] {
          LoopMove(b, Opponent(p), limit, alpha, beta, eval, true, clock);
        }
      }
    }
  }

  /** The move of a node that loops over its children is one of them. */
  lemma LoopMove(b: Board, p: int, limit: real, alpha: Ext, beta: Ext, eval: Eval, noLegal: bool, clock: Clock)
    requires IsStdBoard(b) && Scores(eval) && limit > 0.005 && LegalMoves(b, p) != []
    ensures var r := Search.Search(b, p, limit, alpha, beta, eval, noLegal, clock);
            r.move.Some? && IsLegalAction(b, r.move.value, p)
  {
    var moves := LegalMoves(b, p);
    var start := Progress(None, Worst(p), alpha, beta, limit / |moves| as real, false);
    SearchLoopCase(b, p, limit, alpha, beta, eval, noLegal, clock);
    VisitedOrder(b, p, moves, 0, eval, clock, start);
    VisitedBest(b, p, moves, 0, eval, clock, start);
    LegalMovesSpec(b, p);
    var vs := Visited(b, p, moves, 0, eval, clock, start);
    var s := Children(b, p, moves, 0, eval, clock, start);
    assert !Better(p, s.value, vs[0].value);
    if s.best == None {
      assert false;
    }
    var k :| 0 <= k < |vs| && s.best == Some(vs[k].move);
    assert vs[k].move == moves[k];
  }
}
