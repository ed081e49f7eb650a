/** The modular engine's SearchAlgorithm
    (chessteg_modular/engine/search.py): the mate and stalemate score, the
    move ordering, the move key, the pruning rule of _alpha_beta over a game
    tree (where it is proved to agree with plain negamax), and the search
    object itself, which plays each move on the engine, searches and takes
    it back. */
module ModSearch {
  import opened Common
  import opened ModState
  import opened ModMoves
  import opened ModPlay
  import opened ModEngine
  import opened ModEval

  const MATE_SCORE: int := 20000000
  const MAX_DEPTH: int := 30
  /** ai_settings['search_depth']; the settings are never changed. */
  const SEARCH_DEPTH: int := 3
  /** ai_settings['timeout_ms']. */
  const TIMEOUT_MS: int := 5000

  /** The initial best score and alpha, and the initial beta. */
  const FLOOR: int := -MATE_SCORE - 1
  const CEILING: int := MATE_SCORE + 1

  function SideToMove(s: MState): (c: int)
    ensures IsColour(c)
    ensures c == WHITE <==> s.whiteTurn
  {
    if s.whiteTurn then WHITE else BLACK
  }

  // ---------------------------------------------------------------------
  // _mate_or_stalemate_score and _check_timeout

  /** _mate_or_stalemate_score: the side to move in check scores
      -MATE_SCORE plus the plies it can still delay; otherwise 0. */
  function MateOrStalemateScore(s: MState, depth: int): int
  {
    if KingInCheck(s.pieces, SideToMove(s)) then -MATE_SCORE + (MAX_DEPTH - depth) else 0
  }

  /** A mated side scores within MAX_DEPTH of -MATE_SCORE (for depths the
      search uses), far below every score a position can be given; a side
      not in check scores a draw. */
  lemma MateScoreRange(s: MState, depth: int)
    requires 0 <= depth <= MAX_DEPTH
    ensures KingInCheck(s.pieces, SideToMove(s)) ==>
      -MATE_SCORE <= MateOrStalemateScore(s, depth) <= -MATE_SCORE + MAX_DEPTH
    ensures !KingInCheck(s.pieces, SideToMove(s)) ==> MateOrStalemateScore(s, depth) == 0
  {
  }

  /** A mate with more plies left to search (nearer the root) is worse for
      the mated side, so the winner prefers the quicker mate. */
  lemma QuickerMatePreferred(s: MState, d1: int, d2: int)
    requires KingInCheck(s.pieces, SideToMove(s)) && d1 > d2
    ensures MateOrStalemateScore(s, d1) < MateOrStalemateScore(s, d2)
    ensures -MateOrStalemateScore(s, d1) > -MateOrStalemateScore(s, d2)
  {
  }

  /** _check_timeout on the elapsed milliseconds: never with a timeout of
      zero or less, otherwise once the elapsed time reaches it. */
  function TimedOut(timeoutMs: int, elapsedMs: int): bool
  {
    if timeoutMs <= 0 then false else elapsedMs >= timeoutMs
  }

  /** Once the timeout fired it stays fired, and a non-positive timeout
      disables it. */
  lemma TimedOutMonotone(timeoutMs: int, e1: int, e2: int)
    requires e1 <= e2
    ensures TimedOut(timeoutMs, e1) ==> TimedOut(timeoutMs, e2)
    ensures timeoutMs <= 0 ==> !TimedOut(timeoutMs, e2)
    ensures timeoutMs > 0 ==> (TimedOut(timeoutMs, e2) <==> e2 >= timeoutMs)
  {
  }

  // ---------------------------------------------------------------------
  // _order_moves: the scores

  predicate IsCaptureForOrdering(m: MMove)
  {
    m.isCapture || m.special == EnPassantCapture
  }

  /** The value of the victim: a pawn for en passant, else the piece found
      on to_pos (0 when there is none). */
  function VictimValue(ps: seq<MPiece>, m: MMove): (v: int)
    ensures v >= 0
  {
    if m.special == EnPassantCapture then MaterialValue(PAWN)
    else
      var at := PieceAt(ps, m.to);
      if at.Some? then MaterialValue(ps[at.value].kind) else 0
  }

  /** The ordering score of one move: captures by MVV-LVA plus 10000, a
      truthy promotion piece 900 plus its value, any other move 0. */
  function OrderScore(ps: seq<MPiece>, m: MMove): int
  {
    if IsCaptureForOrdering(m) then 10 * VictimValue(ps, m) - MaterialValue(m.kind) + 10000
    else if Truthy(m.promotionPiece) then 900 + MaterialValue(m.promotionPiece.value)
    else 0
  }

  predicate IsPromotionKind(k: int)
  {
    k == QUEEN || k == ROOK || k == BISHOP || k == KNIGHT
  }

  /** A capture by anything but the king is tried before every promotion
      to a queen, rook, bishop or knight and every quiet move. */
  lemma CapturesFirst(ps: seq<MPiece>, c: MMove, m: MMove)
    requires IsCaptureForOrdering(c) && c.kind != KING
    requires !IsCaptureForOrdering(m)
    requires Truthy(m.promotionPiece) ==> IsPromotionKind(m.promotionPiece.value)
    ensures OrderScore(ps, c) > OrderScore(ps, m)
  {
  }

  /** Promotions come before quiet moves, the queen first. */
  lemma PromotionsBeforeQuietMoves(ps: seq<MPiece>, p: MMove, q: MMove)
    requires !IsCaptureForOrdering(p) && !IsCaptureForOrdering(q)
    requires Truthy(p.promotionPiece) && IsPromotionKind(p.promotionPiece.value)
    ensures !Truthy(q.promotionPiece) ==> OrderScore(ps, p) > OrderScore(ps, q)
    ensures Truthy(q.promotionPiece) && IsPromotionKind(q.promotionPiece.value) && p.promotionPiece.value == QUEEN ==>
      OrderScore(ps, p) >= OrderScore(ps, q)
  {
  }

  /** Most valuable victim first; among equal victims, least valuable
      attacker first. */
  lemma MvvLva(ps: seq<MPiece>, a: MMove, b: MMove)
    requires IsCaptureForOrdering(a) && IsCaptureForOrdering(b)
    ensures VictimValue(ps, a) > VictimValue(ps, b) && MaterialValue(a.kind) <= MaterialValue(b.kind) ==>
      OrderScore(ps, a) > OrderScore(ps, b)
    ensures VictimValue(ps, a) == VictimValue(ps, b) ==>
      (OrderScore(ps, a) > OrderScore(ps, b) <==> MaterialValue(a.kind) < MaterialValue(b.kind))
  {
  }

  /** The king's value of 20000 as attacker puts a king capture of
      anything but a queen after every quiet move. */
  lemma KingCapturesLast(ps: seq<MPiece>, k: MMove, q: MMove)
    requires IsCaptureForOrdering(k) && k.kind == KING && VictimValue(ps, k) < MaterialValue(QUEEN)
    requires !IsCaptureForOrdering(q) && !Truthy(q.promotionPiece)
    ensures OrderScore(ps, k) < OrderScore(ps, q)
  {
  }

  // ---------------------------------------------------------------------
  // _order_moves: the stable sort, highest score first

  /** The indices in `o` are sorted by descending score, equal scores in
      ascending index order (what a stable sort with reverse=True gives). */
  predicate Ordered(o: seq<nat>, scores: seq<int>)
  {
    (forall p :: 0 <= p < |o| ==> o[p] < |scores|) &&
    forall p, q :: 0 <= p < q < |o| ==>
      scores[o[p]] > scores[o[q]] || (scores[o[p]] == scores[o[q]] && o[p] < o[q])
  }

  /** Index k placed after every index whose score is at least its own. */
  function Insert(o: seq<nat>, k: nat, scores: seq<int>): (r: seq<nat>)
    requires k < |scores| && forall p :: 0 <= p < |o| ==> o[p] < |scores|
    ensures |r| == |o| + 1
    ensures forall x :: x in r <==> x in o || x == k
    ensures forall p :: 0 <= p < |r| ==> r[p] < |scores|
  {
    if |o| == 0 then [k]
    else if scores[o[0]] >= scores[k] then [o[0]] + Insert(o[1..], k, scores)
    else [k] + o
  }

  lemma {:induction false} InsertOrdered(o: seq<nat>, k: nat, scores: seq<int>)
    requires k < |scores| && Ordered(o, scores)
    requires forall p :: 0 <= p < |o| ==> o[p] < k
    ensures Ordered(Insert(o, k, scores), scores)
  {
    if |o| > 0 && scores[o[0]] >= scores[k] {
      assert Ordered(o[1..], scores);
      InsertOrdered(o[1..], k, scores);
      var r := Insert(o, k, scores);
      assert r == [o[0]] + Insert(o[1..], k, scores);
      forall p, q | 0 <= p < q < |r|
        ensures scores[r[p]] > scores[r[q]] || (scores[r[p]] == scores[r[q]] && r[p] < r[q])
      {
        if p == 0 {
          assert r[q] in Insert(o[1..], k, scores);
          if r[q] != k {
            var j :| 0 <= j < |o[1..]| && o[1..][j] == r[q];
            assert o[1 + j] == r[q];
          }
        }
      }
    }
  }

  /** The first n indices, sorted. */
  function SortIndices(scores: seq<int>, n: nat): (o: seq<nat>)
    requires n <= |scores|
    ensures |o| == n
    ensures forall x: nat :: x in o <==> x < n
    ensures forall p :: 0 <= p < |o| ==> o[p] < |scores|
  {
    if n == 0 then [] else Insert(SortIndices(scores, n - 1), n - 1, scores)
  }

  /** The sort gives every index exactly once, highest score first and
      ties in their original order. */
  lemma {:induction false} SortIndicesOrdered(scores: seq<int>, n: nat)
    requires n <= |scores|
    ensures Ordered(SortIndices(scores, n), scores)
  {
    if n > 0 {
      SortIndicesOrdered(scores, n - 1);
      var o := SortIndices(scores, n - 1);
      forall p | 0 <= p < |o| ensures o[p] < n - 1 {
        assert o[p] in o;
      }
      InsertOrdered(o, n - 1, scores);
    }
  }

  /** An ordered index sequence never repeats an index. */
  lemma OrderedDistinct(o: seq<nat>, scores: seq<int>)
    requires Ordered(o, scores)
    ensures forall p, q :: 0 <= p < q < |o| ==> o[p] != o[q]
  {
  }

  /** The ordering scores of a list of moves. */
  function Scores(ps: seq<MPiece>, ms: seq<MMove>): (r: seq<int>)
    ensures |r| == |ms|
    ensures forall i :: 0 <= i < |ms| ==> r[i] == OrderScore(ps, ms[i])
  {
    seq(|ms|, i requires 0 <= i < |ms| => OrderScore(ps, ms[i]))
  }

  /** _order_moves: the moves in the order of the sorted indices. */
  function OrderMoves(ps: seq<MPiece>, ms: seq<MMove>): (r: seq<MMove>)
    ensures |r| == |ms|
    ensures forall m :: m in r ==> m in ms
  {
    var o := SortIndices(Scores(ps, ms), |ms|);
    seq(|ms|, p requires 0 <= p < |ms| => ms[o[p]])
  }

  /** The ordered list is a rearrangement of the moves (every position of
      the input is used once), by non-increasing score, stable on ties. */
  lemma OrderMovesSorted(ps: seq<MPiece>, ms: seq<MMove>)
    ensures var o := SortIndices(Scores(ps, ms), |ms|);
      (forall p, q :: 0 <= p < q < |ms| ==> o[p] != o[q]) &&
      (forall i :: 0 <= i < |ms| ==> i in o) &&
      (forall p :: 0 <= p < |ms| ==> OrderMoves(ps, ms)[p] == ms[o[p]]) &&
      (forall p, q :: 0 <= p < q < |ms| ==>
         OrderScore(ps, ms[o[p]]) > OrderScore(ps, ms[o[q]]) ||
         (OrderScore(ps, ms[o[p]]) == OrderScore(ps, ms[o[q]]) && o[p] < o[q]))
  {
    var scores := Scores(ps, ms);
    SortIndicesOrdered(scores, |ms|);
    OrderedDistinct(SortIndices(scores, |ms|), scores);
  }

  /** Every move of the list is still in the ordered list. */
  lemma OrderMovesKeepsAll(ps: seq<MPiece>, ms: seq<MMove>)
    ensures forall m :: m in ms <==> m in OrderMoves(ps, ms)
  {
    var o := SortIndices(Scores(ps, ms), |ms|);
    forall m | m in ms ensures m in OrderMoves(ps, ms) {
      var i :| 0 <= i < |ms| && ms[i] == m;
      assert i in o;
      var p :| 0 <= p < |o| && o[p] == i;
      assert OrderMoves(ps, ms)[p] == m;
    }
  }

  // ---------------------------------------------------------------------
  // _get_move_key

  /** promotion_type, written only when the move has a promotion piece;
      a move without one reads as 0. */
  function PromotionOrZero(m: MMove): int
  {
    if m.promotionType.Some? then m.promotionType.value else 0
  }

  function MoveKey(m: MMove): (int, int, int)
  {
    (m.from, m.to, PromotionOrZero(m))
  }

  /** Two moves share a key exactly when they join the same squares with
      the same promotion: the four promotions of one pawn step differ. */
  lemma MoveKeyIdentifies(m1: MMove, m2: MMove)
    ensures MoveKey(m1) == MoveKey(m2) <==>
      m1.from == m2.from && m1.to == m2.to && PromotionOrZero(m1) == PromotionOrZero(m2)
    ensures (m1.from == m2.from && m1.to == m2.to && m1.promotionType.Some? && m2.promotionType.Some? &&
             m1.promotionType.value != m2.promotionType.value) ==> MoveKey(m1) != MoveKey(m2)
  {
  }

  // ---------------------------------------------------------------------
  // The pruning rule of _alpha_beta on a game tree

  /** A game tree: a leaf carries the score _alpha_beta returns at a
      terminal or depth-0 position; a node has one child per move that
      make_move accepted, in search order.  The pruning rule reads every
      score from the view of the side to move; the depth-0 evaluation the
      search returns is White's view instead (see BlackLeafScoredForWhite). */
  datatype Tree = Leaf(score: int) | Node(children: seq<Tree>)

  function Larger(a: int, b: int): int
  {
    if b > a then b else a
  }

  /** Plain negamax with the loop's initial best score FLOOR. */
  function Negamax(t: Tree): int
    decreases t, 1
  {
    match t
    case Leaf(v) => v
    case Node(cs) => NegamaxList(cs, FLOOR)
  }

  function NegamaxList(cs: seq<Tree>, best: int): int
    decreases cs, 0
  {
    if |cs| == 0 then best
    else NegamaxList(cs[1..], Larger(best, -Negamax(cs[0])))
  }

  /** _alpha_beta on a tree: fail-soft, best starts at FLOOR, a move
      raises best and alpha, and the loop stops once alpha reaches beta. */
  function AlphaBetaTree(t: Tree, alpha: int, beta: int): int
    decreases t, 1
  {
    match t
    case Leaf(v) => v
    case Node(cs) => AlphaBetaList(cs, alpha, beta, FLOOR)
  }

  function AlphaBetaList(cs: seq<Tree>, alpha: int, beta: int, best: int): int
    decreases cs, 0
  {
    if |cs| == 0 then best
    else
      var score := -AlphaBetaTree(cs[0], -beta, -alpha);
      var best' := if score > best then score else best;
      var alpha' := if score > alpha then score else alpha;
      if alpha' >= beta then best' else AlphaBetaList(cs[1..], alpha', beta, best')
  }

  lemma {:induction false} NegamaxListFloor(cs: seq<Tree>, best: int)
    ensures NegamaxList(cs, best) >= best
    decreases |cs|
  {
    if |cs| > 0 {
      NegamaxListFloor(cs[1..], Larger(best, -Negamax(cs[0])));
    }
  }

  /** Raising the starting best to x gives the larger of x and the value. */
  lemma {:induction false} NegamaxListShift(cs: seq<Tree>, x: int, y: int)
    ensures NegamaxList(cs, Larger(x, y)) == Larger(x, NegamaxList(cs, y))
    decreases |cs|
  {
    if |cs| == 0 {
    } else {
      var v := -Negamax(cs[0]);
      assert Larger(Larger(x, y), v) == Larger(x, Larger(y, v));
      NegamaxListShift(cs[1..], x, Larger(y, v));
    }
  }

  /** What a fail-soft search promises: a result at or below alpha bounds
      the true value from above, one at or above beta bounds it from
      below, and one strictly inside the window is the true value. */
  predicate FailSoft(r: int, v: int, alpha: int, beta: int)
  {
    (r <= alpha ==> v <= r) && (r >= beta ==> v >= r) && (alpha < r < beta ==> v == r)
  }

  lemma {:induction false} AlphaBetaFailSoft(t: Tree, alpha: int, beta: int)
    requires FLOOR <= alpha < beta <= CEILING
    ensures FailSoft(AlphaBetaTree(t, alpha, beta), Negamax(t), alpha, beta)
    decreases t, 1
  {
    match t
    case Leaf(v) =>
    case Node(cs) =>
      AlphaBetaListFailSoft(cs, alpha, beta, FLOOR);
  }

  lemma {:induction false} AlphaBetaListFailSoft(cs: seq<Tree>, alpha: int, beta: int, best: int)
    requires FLOOR <= alpha < beta <= CEILING && best <= alpha
    ensures FailSoft(AlphaBetaList(cs, alpha, beta, best), NegamaxList(cs, best), alpha, beta)
    decreases cs, 0
  {
    if |cs| > 0 {
      var c := cs[0];
      var rc := AlphaBetaTree(c, -beta, -alpha);
      var vc := Negamax(c);
      AlphaBetaFailSoft(c, -beta, -alpha);
      var score := -rc;
      var best' := if score > best then score else best;
      var alpha' := if score > alpha then score else alpha;
      var bestv := Larger(best, -vc);
      assert NegamaxList(cs, best) == NegamaxList(cs[1..], bestv);
      if alpha' >= beta {
        // The cut-off move already proves the value is at least its score.
        NegamaxListFloor(cs[1..], bestv);
      } else {
        AlphaBetaListFailSoft(cs[1..], alpha', beta, best');
        AlphaBetaListFloor(cs[1..], alpha', beta, best');
        NegamaxListFloor(cs[1..], best');
        if score <= alpha {
          assert Larger(best', bestv) == best';
          NegamaxListShift(cs[1..], best', bestv);
        } else {
          assert bestv == best';
        }
      }
    }
  }

  lemma {:induction false} AlphaBetaListFloor(cs: seq<Tree>, alpha: int, beta: int, best: int)
    ensures AlphaBetaList(cs, alpha, beta, best) >= best
    decreases |cs|
  {
    if |cs| > 0 {
      var score := -AlphaBetaTree(cs[0], -beta, -alpha);
      var best' := if score > best then score else best;
      var alpha' := if score > alpha then score else alpha;
      if alpha' < beta {
        AlphaBetaListFloor(cs[1..], alpha', beta, best');
      }
    }
  }

  /** A tree whose leaves are real scores (within MATE_SCORE of 0) and
      where every inner position has at least one playable move. */
  predicate Bounded(t: Tree)
    decreases t
  {
    match t
    case Leaf(v) => -MATE_SCORE <= v <= MATE_SCORE
    case Node(cs) => |cs| > 0 && forall i :: 0 <= i < |cs| ==> Bounded(cs[i])
  }

  lemma {:induction false} NegamaxBounded(t: Tree)
    requires Bounded(t)
    ensures -MATE_SCORE <= Negamax(t) <= MATE_SCORE
    decreases t, 1
  {
    match t
    case Leaf(v) =>
    case Node(cs) =>
      NegamaxListBounded(cs, FLOOR);
  }

  lemma {:induction false} NegamaxListBounded(cs: seq<Tree>, best: int)
    requires forall i :: 0 <= i < |cs| ==> Bounded(cs[i])
    requires best <= MATE_SCORE
    ensures NegamaxList(cs, best) <= MATE_SCORE
    ensures |cs| > 0 ==> NegamaxList(cs, best) >= -MATE_SCORE
    decreases cs, 0
  {
    if |cs| > 0 {
      NegamaxBounded(cs[0]);
      var b := Larger(best, -Negamax(cs[0]));
      NegamaxListBounded(cs[1..], b);
      NegamaxListFloor(cs[1..], b);
    }
  }

  /** With real scores at the leaves, the full-window search of
      computer_move finds exactly the negamax value. */
  lemma FullWindowIsNegamax(t: Tree)
    requires Bounded(t)
    ensures AlphaBetaTree(t, FLOOR, CEILING) == Negamax(t)
  {
    NegamaxBounded(t);
    AlphaBetaFailSoft(t, FLOOR, CEILING);
  }

  /** computer_move's loop on a tree: like AlphaBetaList from child i on,
      also remembering the child whose score last raised best. */
  function RootLoop(cs: seq<Tree>, i: nat, alpha: int, beta: int, best: int, choice: Option<nat>): (r: (int, Option<nat>))
    requires i <= |cs|
    decreases |cs| - i
  {
    if i == |cs| then (best, choice)
    else
      var score := -AlphaBetaTree(cs[i], -beta, -alpha);
      var best', choice' := if score > best then score else best, if score > best then Some(i) else choice;
      var alpha' := if score > alpha then score else alpha;
      if alpha' >= beta then (best', choice') else RootLoop(cs, i + 1, alpha', beta, best', choice')
  }

  /** computer_move over a tree of bounded children picks the first child
      with the best negamax value, and that value is the root's. */
  lemma RootPicksFirstBest(cs: seq<Tree>)
    requires |cs| > 0 && forall i :: 0 <= i < |cs| ==> Bounded(cs[i])
    ensures var (best, choice) := RootLoop(cs, 0, FLOOR, CEILING, FLOOR, None);
      choice.Some? && choice.value < |cs| &&
      best == -Negamax(cs[choice.value]) &&
      (forall k :: 0 <= k < |cs| ==> -Negamax(cs[k]) <= best) &&
      (forall k :: 0 <= k < choice.value ==> -Negamax(cs[k]) < best)
  {
    RootLoopInvariant(cs, 0, FLOOR, None);
  }

  /** The loop state at the root keeps alpha equal to best; the claim for
      children i.. given it holds for children ..i. */
  lemma {:induction false} RootLoopInvariant(cs: seq<Tree>, i: nat, best: int, choice: Option<nat>)
    requires i <= |cs| && forall k :: 0 <= k < |cs| ==> Bounded(cs[k])
    requires FLOOR <= best <= MATE_SCORE
    requires choice.None? ==> i == 0 && best == FLOOR
    requires choice.Some? ==> (choice.value < i && best == -Negamax(cs[choice.value]) &&
      forall k :: 0 <= k < choice.value ==> -Negamax(cs[k]) < best)
    requires forall k :: 0 <= k < i ==> -Negamax(cs[k]) <= best
    ensures var (b, ch) := RootLoop(cs, i, best, CEILING, best, choice);
      (|cs| > 0 ==> ch.Some?) &&
      (ch.Some? ==> (ch.value < |cs| && b == -Negamax(cs[ch.value]) &&
                     (forall k :: 0 <= k < |cs| ==> -Negamax(cs[k]) <= b) &&
                     (forall k :: 0 <= k < ch.value ==> -Negamax(cs[k]) < b)))
    decreases |cs| - i
  {
    if i < |cs| {
      var rc := AlphaBetaTree(cs[i], -CEILING, -best);
      var vc := Negamax(cs[i]);
      AlphaBetaFailSoft(cs[i], -CEILING, -best);
      NegamaxBounded(cs[i]);
      var score := -rc;
      if score > best {
        assert score == -vc;
        RootLoopInvariant(cs, i + 1, score, Some(i));
      } else {
        assert -vc <= best;
        RootLoopInvariant(cs, i + 1, best, choice);
      }
    }
  }

  /** The best score computer_move's loop finds is that of AlphaBetaList. */
  lemma {:induction false} RootLoopScore(cs: seq<Tree>, i: nat, alpha: int, beta: int, best: int, choice: Option<nat>)
    requires i <= |cs|
    ensures RootLoop(cs, i, alpha, beta, best, choice).0 == AlphaBetaList(cs[i..], alpha, beta, best)
    decreases |cs| - i
  {
    if i < |cs| {
      assert cs[i..][0] == cs[i] && cs[i..][1..] == cs[i + 1..];
      var score := -AlphaBetaTree(cs[i], -beta, -alpha);
      var best' := if score > best then score else best;
      var choice' := if score > best then Some(i) else choice;
      var alpha' := if score > alpha then score else alpha;
      RootLoopScore(cs, i + 1, alpha', beta, best', choice');
    }
  }

  // ---------------------------------------------------------------------
  // The search on the engine

  /** What the search needs of the engine between calls: a sound state
      whose colours are WHITE or BLACK, and saved states of the same kind
      on the move_history stack (undo_move may restore any of them). */
  predicate SearchOk(g: MGame)
  {
    GameOk(g) && ColoursOk(g.state.pieces) &&
    forall i :: 0 <= i < |g.history| ==> ColoursOk(g.history[i].pieces)
  }

  /** The common tail of make_move keeps the colours of a roster. */
  lemma FinishKeepsColours(s: MState, ps: seq<MPiece>, rights: Rights, m: MMove)
    requires |s.board| == BOARD_SIZE && ColoursOk(ps)
    ensures ColoursOk(Finish(s.(pieces := ps, castlingRights := rights)).pieces)
    ensures ColoursOk(Finish(ProcessMove(s.(pieces := ps), m)).pieces)
  {
    assert ProcessMove(s.(pieces := ps), m).pieces == ps;
  }

  /** Each path of make_move keeps the colours of the roster. */
  lemma PlayPathKeepsColours(s: MState, m: MMove, i: nat)
    requires StateOk(s) && ColoursOk(s.pieces) && MoveOk(m) && i < |s.pieces|
    ensures ColoursOk(PlayPath(s, m, i).1.pieces)
  {
    if PathOf(m) == CastlingPath {
      CastlingPathKeepsColours(s, m, i);
    } else {
      OtherPathsKeepColours(s, m, i);
    }
  }

  lemma CastlingPathKeepsColours(s: MState, m: MMove, i: nat)
    requires StateOk(s) && ColoursOk(s.pieces) && MoveOk(m) && i < |s.pieces| && PathOf(m) == CastlingPath
    ensures ColoursOk(PlayPath(s, m, i).1.pieces)
  {
    var rook := PieceById(s.pieces, m.rook.value.rookId);
    if rook.Some? {
      var rights := RevokeCastlingRights(s.castlingRights, s.pieces[i].colour);
      CastlingRosterSound(s.pieces, i, rook.value, m, s.nextPieceId);
      FinishKeepsColours(s, CastlingRoster(s.pieces, i, rook.value, m), rights, m);
    }
  }

  lemma OtherPathsKeepColours(s: MState, m: MMove, i: nat)
    requires StateOk(s) && ColoursOk(s.pieces) && MoveOk(m) && i < |s.pieces| && PathOf(m) != CastlingPath
    ensures ColoursOk(PlayPath(s, m, i).1.pieces)
  {
    var ps := if PathOf(m) == EnPassantPath then EnPassantRoster(s.pieces, i, m)
              else if PathOf(m) == PromotionPath then PromotionRoster(s.pieces, i, m)
              else NormalRoster(s.pieces, i, m);
    if PathOf(m) == EnPassantPath {
      EnPassantRosterSound(s.pieces, i, m, s.nextPieceId);
    } else if PathOf(m) == PromotionPath {
      PromotionRosterSound(s.pieces, i, m, s.nextPieceId);
    } else {
      NormalRosterSound(s.pieces, i, m, s.nextPieceId);
    }
    FinishKeepsColours(s, ps, s.castlingRights, m);
    assert s.(pieces := ps, castlingRights := s.castlingRights) == s.(pieces := ps);
  }

  /** make_move keeps the colours of the roster. */
  lemma MakeMoveKeepsColours(g: MGame, m: MMove)
    requires StateOk(g.state) && ColoursOk(g.state.pieces) && MoveOk(m)
    ensures ColoursOk(MakeMove(g, m).1.state.pieces)
  {
    var at := PieceAt(g.state.pieces, m.from);
    if at.Some? {
      PlayPathKeepsColours(g.state, m, at.value);
    }
  }

  lemma MakeMoveKeepsSearchOk(g: MGame, m: MMove)
    requires SearchOk(g) && MoveOk(m)
    ensures SearchOk(MakeMove(g, m).1)
  {
    MakeMoveKeepsGameOk(g, m);
    MakeMoveKeepsColours(g, m);
    var h := MakeMove(g, m).1.history;
    assert forall i :: 0 <= i < |g.history| ==> h[i] == g.history[i];
  }

  lemma UndoKeepsSearchOk(g: MGame)
    requires SearchOk(g)
    ensures SearchOk(Undo(g).1)
  {
    UndoKeepsGameOk(g);
  }

  /** The engine's game together with the counters the search raises
      below the root: node_counter and the evaluator's eval_counter. */
  datatype World = World(game: MGame, nodes: int, evals: int)

  /** The depth the reply to a move is searched at. */
  function ReplyDepth(depth: int): int
  {
    depth - 1
  }

  /** A bound of the reply's window: the window is negated and swapped. */
  function Negated(bound: int): int
  {
    -bound
  }

  function Plies(depth: int): nat
  {
    if depth > 0 then depth else 0
  }

  /** _alpha_beta: counts the node; a position flagged over scores as mate
      or stalemate; at depth 0 the evaluator scores it; otherwise the
      legal moves (the generator leaves its board behind) are ordered and
      searched, and a position without legal moves scores as mate or
      stalemate.  The timeout never fires here. */
  function NodeScore(w: World, depth: int, alpha: int, beta: int): (r: (int, World))
    requires SearchOk(w.game)
    ensures SearchOk(r.1.game)
    ensures r.1.nodes > w.nodes && r.1.evals >= w.evals
    decreases Plies(depth), 3, 0
  {
    var s := w.game.state;
    var w1 := w.(nodes := w.nodes + 1);
    if s.checkmate || s.stalemate then (MateOrStalemateScore(s, depth), w1)
    else if depth <= 0 then (PositionScore(s), w1.(evals := w1.evals + 1))
    else ExpandScore(w1, depth, alpha, beta)
  }

  /** The score a depth-0 leaf needs for the negamax recursion, which
      negates every reply's score: the evaluation from the side to move's
      view.  evaluate_position scores from White's view, so Black's leaves
      are negated here. */
  function LeafScoreIntended(s: MState): int
  {
    if s.whiteTurn then PositionScore(s) else -PositionScore(s)
  }

  /** Without end flags the intended leaf score is the material of the
      side to move minus its opponent's, for either side. */
  lemma LeafScoreIntendedIsMoverView(s: MState)
    requires ColoursOk(s.pieces) && !s.checkmate && !s.stalemate
    ensures LeafScoreIntended(s) ==
      SideMaterial(s.pieces, SideToMove(s)) - SideMaterial(s.pieces, -SideToMove(s))
  {
    MaterialIsDifference(s.pieces);
  }

  /** As written, a depth-0 leaf with Black to move returns White's view:
      once the material is unbalanced the leaf has the opposite sign of the
      side-to-move score the recursion negates. */
  lemma BlackLeafScoredForWhite(w: World, alpha: int, beta: int)
    requires SearchOk(w.game)
    requires !w.game.state.whiteTurn && !w.game.state.checkmate && !w.game.state.stalemate
    requires Material(w.game.state.pieces) != 0
    ensures NodeScore(w, 0, alpha, beta).0 == -LeafScoreIntended(w.game.state)
    ensures NodeScore(w, 0, alpha, beta).0 != LeafScoreIntended(w.game.state)
  {
  }

  /** The search part of _alpha_beta, once the node is counted: the legal
      moves (the generator leaves its board behind) are ordered and
      searched; a position without legal moves scores as mate or
      stalemate. */
  function ExpandScore(w: World, depth: int, alpha: int, beta: int): (r: (int, World))
    requires depth > 0 && SearchOk(w.game)
    ensures SearchOk(r.1.game)
    ensures r.1.nodes >= w.nodes && r.1.evals >= w.evals
    decreases Plies(depth), 2, 0
  {
    var s := w.game.state;
    var (moves, b) := GenerateMoves(s, SideToMove(s));
    var w2 := w.(game := w.game.(state := s.(board := b)));
    if |moves| == 0 then (MateOrStalemateScore(s, depth), w2)
    else
      GeneratedMovesOk(s, SideToMove(s));
      LoopScore(w2, OrderMoves(s.pieces, moves), depth, alpha, beta, FLOOR)
  }

  /** The move loop of _alpha_beta from the given best score on: a move
      make_move rejects is skipped; otherwise its score raises best and
      alpha, and the loop stops once alpha reaches beta. */
  function LoopScore(w: World, ms: seq<MMove>, depth: int, alpha: int, beta: int, best: int): (r: (int, World))
    requires depth > 0 && SearchOk(w.game) && MovesOk(ms)
    ensures SearchOk(r.1.game)
    ensures r.0 >= best && (r.0 > best ==> |ms| > 0)
    ensures r.1.nodes >= w.nodes && r.1.evals >= w.evals
    decreases depth, 1, |ms|
  {
    if |ms| == 0 then (best, w)
    else
      var (made, score, w1) := PlayAndScore(w, ms[0], depth, alpha, beta);
      if !made then LoopScore(w1, ms[1..], depth, alpha, beta, best)
      else
        var best' := if score > best then score else best;
        var alpha' := if score > alpha then score else alpha;
        if alpha' >= beta then (best', w1) else LoopScore(w1, ms[1..], depth, alpha', beta, best')
  }

  /** One move of the loop: make_move; if it succeeds, the negated score of
      the reply search with the negated, swapped window, then undo_move. */
  function PlayAndScore(w: World, m: MMove, depth: int, alpha: int, beta: int): (r: (bool, int, World))
    requires depth > 0 && SearchOk(w.game) && MoveOk(m)
    ensures SearchOk(r.2.game)
    ensures !r.0 ==> r.2 == w.(game := MakeMove(w.game, m).1)
    ensures r.0 ==> r.2.nodes > w.nodes && r.2.evals >= w.evals
    decreases depth, 0, 0
  {
    MakeMoveKeepsSearchOk(w.game, m);
    var (ok, g1) := MakeMove(w.game, m);
    if !ok then (false, 0, w.(game := g1))
    else
      var (score, w2) := NodeScore(w.(game := g1), ReplyDepth(depth), Negated(beta), Negated(alpha));
      UndoKeepsSearchOk(w2.game);
      (true, -score, w2.(game := Undo(w2.game).1))
  }

  /** computer_move: the counters reset; no legal move gives None;
      otherwise the ordered moves are searched to SEARCH_DEPTH with the
      full window and the move that last raised the best score is
      returned. */
  function ChosenMove(w: World): (r: (Option<MMove>, World, nat))
    requires SearchOk(w.game)
    ensures SearchOk(r.1.game)
  {
    var s := w.game.state;
    var w0 := w.(nodes := 0);
    var (moves, b) := GenerateMoves(s, SideToMove(s));
    var w1 := w0.(game := w.game.(state := s.(board := b)));
    if |moves| == 0 then (None, w1, 0)
    else
      GeneratedMovesOk(s, SideToMove(s));
      RootChoice(w1, OrderMoves(s.pieces, moves), FLOOR, CEILING, FLOOR, None)
  }

  /** The move loop of computer_move: the chosen move, the world after
      the loop, and the number of moves tried, rejected ones included,
      which move_counter counts. */
  function RootChoice(w: World, ms: seq<MMove>, alpha: int, beta: int, best: int, bestMove: Option<MMove>): (r: (Option<MMove>, World, nat))
    requires SearchOk(w.game) && MovesOk(ms)
    ensures SearchOk(r.1.game)
    ensures r.0.Some? ==> r.0 == bestMove || r.0.value in ms
    ensures r.2 <= |ms| && (|ms| > 0 ==> r.2 > 0)
    decreases |ms|
  {
    if |ms| == 0 then (bestMove, w, 0)
    else
      var (made, score, w1) := PlayAndScore(w, ms[0], SEARCH_DEPTH, alpha, beta);
      if !made then
        var r := RootChoice(w1, ms[1..], alpha, beta, best, bestMove);
        (r.0, r.1, r.2 + 1)
      else
        var best', bestMove' := if score > best then score else best, if score > best then Some(ms[0]) else bestMove;
        var alpha' := if score > alpha then score else alpha;
        if alpha' >= beta then (bestMove', w1, 1)
        else
          var r := RootChoice(w1, ms[1..], alpha', beta, best', bestMove');
          (r.0, r.1, r.2 + 1)
  }

  /** A position flagged over is scored without a move: a flagged mate of
      the side to move in check scores within MAX_DEPTH of -MATE_SCORE, a
      flagged stalemate without check 0. */
  lemma AlphaBetaOnFinishedGame(w: World, depth: int, alpha: int, beta: int)
    requires SearchOk(w.game) && 0 <= depth <= MAX_DEPTH
    requires w.game.state.checkmate || w.game.state.stalemate
    ensures var (score, r) := NodeScore(w, depth, alpha, beta);
      r.game == w.game &&
      (KingInCheck(w.game.state.pieces, SideToMove(w.game.state)) ==> -MATE_SCORE <= score <= -MATE_SCORE + MAX_DEPTH) &&
      (!KingInCheck(w.game.state.pieces, SideToMove(w.game.state)) ==> score == 0)
  {
    MateScoreRange(w.game.state, depth);
  }

  /** Without legal moves for the side to move, _alpha_beta above depth 0
      scores a mate when in check and a draw otherwise, whatever the
      flags say. */
  lemma AlphaBetaWithoutMoves(w: World, depth: int, alpha: int, beta: int)
    requires SearchOk(w.game) && 0 < depth <= MAX_DEPTH
    requires |GenerateMoves(w.game.state, SideToMove(w.game.state)).0| == 0
    ensures var score := NodeScore(w, depth, alpha, beta).0;
      (KingInCheck(w.game.state.pieces, SideToMove(w.game.state)) ==> -MATE_SCORE <= score <= -MATE_SCORE + MAX_DEPTH) &&
      (!KingInCheck(w.game.state.pieces, SideToMove(w.game.state)) ==> score == 0)
  {
    MateScoreRange(w.game.state, depth);
  }

  /** At depth 0 an unfinished position gets the evaluator's score, and
      the evaluator is called once. */
  lemma AlphaBetaAtHorizon(w: World, depth: int, alpha: int, beta: int)
    requires SearchOk(w.game) && depth <= 0
    requires !w.game.state.checkmate && !w.game.state.stalemate
    ensures NodeScore(w, depth, alpha, beta) == (PositionScore(w.game.state), w.(nodes := w.nodes + 1, evals := w.evals + 1))
  {
  }

  /** computer_move returns None when the side to move has no legal move,
      and otherwise only a move generate_moves produced, which therefore
      does not leave the mover's king in check; it tries each move at
      most once. */
  lemma ComputerMoveIsLegal(w: World)
    requires SearchOk(w.game)
    ensures var s := w.game.state;
      var legal := GenerateMoves(s, SideToMove(s)).0;
      var (choice, r, tried) := ChosenMove(w);
      (|legal| == 0 ==> choice.None?) &&
      (choice.Some? ==> choice.value in legal && MoveLegal(s.pieces, choice.value)) &&
      tried <= |legal| && (|legal| > 0 ==> tried > 0)
  {
    var s := w.game.state;
    var (moves, b) := GenerateMoves(s, SideToMove(s));
    if |moves| > 0 {
      GeneratedMovesOk(s, SideToMove(s));
      var w1 := w.(nodes := 0, game := w.game.(state := s.(board := b)));
      var ordered := OrderMoves(s.pieces, moves);
      OrderMovesKeepsAll(s.pieces, moves);
      var choice := ChosenMove(w).0;
      if choice.Some? {
        GeneratedMovesAreLegal(s, SideToMove(s), choice.value);
      }
    }
  }

  lemma PlayAndScoreRejected(w: World, m: MMove, depth: int, alpha: int, beta: int)
    requires depth > 0 && SearchOk(w.game) && MoveOk(m) && !MakeMove(w.game, m).0
    ensures var r := PlayAndScore(w, m, depth, alpha, beta);
      !r.0 && r.1 == 0 && r.2 == w.(game := MakeMove(w.game, m).1)
  {
  }

  lemma PlayAndScorePlayed(w: World, m: MMove, depth: int, alpha: int, beta: int)
    requires depth > 0 && SearchOk(w.game) && MoveOk(m) && MakeMove(w.game, m).0
    ensures SearchOk(MakeMove(w.game, m).1)
    ensures var n := NodeScore(w.(game := MakeMove(w.game, m).1), ReplyDepth(depth), Negated(beta), Negated(alpha));
      var r := PlayAndScore(w, m, depth, alpha, beta);
      r.0 && r.1 == -n.0 && r.2 == n.1.(game := Undo(n.1.game).1)
  {
    MakeMoveKeepsSearchOk(w.game, m);
  }

  /** A step of the root loop whose move make_move rejects goes on with
      the next move, the window and best move unchanged. */
  lemma RootChoiceSkip(w: World, ms: seq<MMove>, alpha: int, beta: int, best: int, bestMove: Option<MMove>, w1: World)
    requires SearchOk(w.game) && MovesOk(ms) && |ms| > 0
    requires !PlayAndScore(w, ms[0], SEARCH_DEPTH, alpha, beta).0
    requires w1 == PlayAndScore(w, ms[0], SEARCH_DEPTH, alpha, beta).2
    ensures SearchOk(w1.game) && MovesOk(ms[1..])
    ensures RootChoice(w, ms, alpha, beta, best, bestMove).0 == RootChoice(w1, ms[1..], alpha, beta, best, bestMove).0
    ensures RootChoice(w, ms, alpha, beta, best, bestMove).1 == RootChoice(w1, ms[1..], alpha, beta, best, bestMove).1
    ensures RootChoice(w, ms, alpha, beta, best, bestMove).2 == RootChoice(w1, ms[1..], alpha, beta, best, bestMove).2 + 1
  {
  }

  /** A step of the root loop whose move was played and raised alpha to
      beta or above: the loop stops after this one move, which becomes the
      best move when its score is above the best. */
  lemma RootChoiceCutoff(w: World, ms: seq<MMove>, alpha: int, beta: int, best: int, bestMove: Option<MMove>, score: int, w1: World)
    requires SearchOk(w.game) && MovesOk(ms) && |ms| > 0
    requires PlayAndScore(w, ms[0], SEARCH_DEPTH, alpha, beta).0
    requires score == PlayAndScore(w, ms[0], SEARCH_DEPTH, alpha, beta).1
    requires w1 == PlayAndScore(w, ms[0], SEARCH_DEPTH, alpha, beta).2
    requires (if score > alpha then score else alpha) >= beta
    ensures RootChoice(w, ms, alpha, beta, best, bestMove).0 == if score > best then Some(ms[0]) else bestMove
    ensures RootChoice(w, ms, alpha, beta, best, bestMove).1 == w1
    ensures RootChoice(w, ms, alpha, beta, best, bestMove).2 == 1
  {
  }

  /** A step of the root loop whose move was played and left alpha below
      beta: the loop goes on with the raised best score, best move and
      alpha. */
  lemma RootChoicePlay(w: World, ms: seq<MMove>, alpha: int, beta: int, best: int, bestMove: Option<MMove>, score: int, w1: World,
                       alpha': int, best': int, bestMove': Option<MMove>)
    requires SearchOk(w.game) && MovesOk(ms) && |ms| > 0
    requires PlayAndScore(w, ms[0], SEARCH_DEPTH, alpha, beta).0
    requires score == PlayAndScore(w, ms[0], SEARCH_DEPTH, alpha, beta).1
    requires w1 == PlayAndScore(w, ms[0], SEARCH_DEPTH, alpha, beta).2
    requires alpha' == (if score > alpha then score else alpha) && alpha' < beta
    requires best' == (if score > best then score else best)
    requires bestMove' == (if score > best then Some(ms[0]) else bestMove)
    ensures SearchOk(w1.game) && MovesOk(ms[1..])
    ensures RootChoice(w, ms, alpha, beta, best, bestMove).0 == RootChoice(w1, ms[1..], alpha', beta, best', bestMove').0
    ensures RootChoice(w, ms, alpha, beta, best, bestMove).1 == RootChoice(w1, ms[1..], alpha', beta, best', bestMove').1
    ensures RootChoice(w, ms, alpha, beta, best, bestMove).2 == RootChoice(w1, ms[1..], alpha', beta, best', bestMove').2 + 1
  {
  }

  /** _alpha_beta with legal moves is the move loop over them, ordered, on
      the position the generator left. */
  lemma ExpandSearches(w: World, w1: World, ordered: seq<MMove>, depth: int, alpha: int, beta: int)
    requires depth > 0 && SearchOk(w.game)
    requires var s := w.game.state;
      var (moves, b) := GenerateMoves(s, SideToMove(s));
      |moves| > 0 && ordered == OrderMoves(s.pieces, moves) &&
      w1.game == w.game.(state := s.(board := b)) && w1.nodes == w.nodes && w1.evals == w.evals
    ensures SearchOk(w1.game) && MovesOk(ordered)
    ensures ExpandScore(w, depth, alpha, beta).0 == LoopScore(w1, ordered, depth, alpha, beta, FLOOR).0
    ensures ExpandScore(w, depth, alpha, beta).1 == LoopScore(w1, ordered, depth, alpha, beta, FLOOR).1
  {
    var s := w.game.state;
    GeneratedMovesOk(s, SideToMove(s));
    assert w1 == w.(game := w.game.(state := s.(board := GenerateMoves(s, SideToMove(s)).1)));
  }

  /** _alpha_beta without legal moves scores the position as mate or
      stalemate, on the position the generator left. */
  lemma ExpandWithoutMoves(w: World, w1: World, depth: int, alpha: int, beta: int)
    requires depth > 0 && SearchOk(w.game)
    requires var s := w.game.state;
      var (moves, b) := GenerateMoves(s, SideToMove(s));
      |moves| == 0 && w1.game == w.game.(state := s.(board := b)) &&
      w1.nodes == w.nodes && w1.evals == w.evals
    ensures ExpandScore(w, depth, alpha, beta).0 == MateOrStalemateScore(w1.game.state, depth)
    ensures ExpandScore(w, depth, alpha, beta).1 == w1
  {
    var s := w.game.state;
    assert MateOrStalemateScore(w1.game.state, depth) == MateOrStalemateScore(s, depth);
  }

  /** computer_move with legal moves is the root loop over them, ordered,
      on the position the generator left, with both counters reset. */
  lemma ChosenMoveSearches(w: World, w1: World, sorted: seq<MMove>)
    requires SearchOk(w.game)
    requires var s := w.game.state;
      var (moves, b) := GenerateMoves(s, SideToMove(s));
      |moves| > 0 && sorted == OrderMoves(s.pieces, moves) &&
      w1.game == w.game.(state := s.(board := b)) && w1.nodes == 0 && w1.evals == w.evals
    ensures SearchOk(w1.game) && MovesOk(sorted)
    ensures ChosenMove(w).0 == RootChoice(w1, sorted, FLOOR, CEILING, FLOOR, None).0
    ensures ChosenMove(w).1 == RootChoice(w1, sorted, FLOOR, CEILING, FLOOR, None).1
    ensures ChosenMove(w).2 == RootChoice(w1, sorted, FLOOR, CEILING, FLOOR, None).2
  {
    var s := w.game.state;
    GeneratedMovesOk(s, SideToMove(s));
    assert w1 == w.(nodes := 0).(game := w.game.(state := s.(board := GenerateMoves(s, SideToMove(s)).1)));
  }

  // ---------------------------------------------------------------------
  // The SearchAlgorithm object

  /** SearchAlgorithm: the engine it plays on, the engine's evaluator, and
      the node and move counters.  The settings are the constants above;
      the start time, the transposition table and the ordering cache are
      written but never read. */
  class SearchAlgorithm {
    const engine: Engine
    const evaluator: PositionEvaluator
    var nodeCounter: int
    var moveCounter: int

    constructor (engine: Engine, evaluator: PositionEvaluator)
      requires evaluator.engine == engine
      ensures this.engine == engine && this.evaluator == evaluator
      ensures nodeCounter == 0 && moveCounter == 0
    {
      this.engine := engine;
      this.evaluator := evaluator;
      nodeCounter := 0;
      moveCounter := 0;
    }

    /** The engine with its history and the three counters. */
    function Current(): World
      reads this, engine, engine.rules, evaluator
    {
      World(engine.Game(), nodeCounter, evaluator.evalCounter)
    }

    /** _mate_or_stalemate_score. */
    method MateOrStalemate(depth: int) returns (score: int)
      ensures score == MateOrStalemateScore(engine.State(), depth)
    {
      var colour := if engine.whiteTurn then WHITE else BLACK;
      var inCheck := engine.IsKingInCheck(colour);
      score := if inCheck then -MATE_SCORE + (MAX_DEPTH - depth) else 0;
    }

    /** The ordering score of one move, looking the victim up with
      get_piece_at. */
    method MoveScore(m: MMove) returns (score: int)
      ensures score == OrderScore(engine.pieces, m)
    {
      score := 0;
      if m.isCapture || m.special == EnPassantCapture {
        var victimValue := 0;
        if m.special == EnPassantCapture {
          victimValue := MaterialValue(PAWN);
        } else {
          var victim := engine.GetPieceAt(m.to);
          if victim.Some? {
            victimValue := MaterialValue(engine.pieces[victim.value].kind);
          }
        }
        score := score + 10 * victimValue - MaterialValue(m.kind);
        score := score + 10000;
      } else if m.promotionPiece.Some? && m.promotionPiece.value != 0 {
        score := score + 900 + MaterialValue(m.promotionPiece.value);
      }
    }

    /** _order_moves: the scores in one pass, then the stable sort. */
    method OrderMovesOf(ms: seq<MMove>) returns (ordered: seq<MMove>)
      ensures ordered == OrderMoves(engine.pieces, ms)
    {
      var scores: seq<int> := [];
      for i := 0 to |ms|
        invariant |scores| == i
        invariant forall j :: 0 <= j < i ==> scores[j] == OrderScore(engine.pieces, ms[j])
      {
        var score := MoveScore(ms[i]);
        scores := scores + [score];
      }
      assert scores == Scores(engine.pieces, ms);
      var o := SortIndices(scores, |ms|);
      ordered := seq(|ms|, p requires 0 <= p < |ms| => ms[o[p]]);
    }

    /** _alpha_beta. */
    method AlphaBeta(depth: int, alpha: int, beta: int) returns (score: int)
      requires evaluator.engine == engine && SearchOk(engine.Game())
      modifies this`nodeCounter, evaluator`evalCounter
      modifies engine`board, engine`pieces, engine`whiteTurn, engine`checkmate, engine`stalemate
      modifies engine`nextPieceId, engine`moveHistory, engine.rules`enPassantTarget, engine.rules`castlingRights
      ensures score == NodeScore(old(Current()), depth, alpha, beta).0
      ensures Current() == NodeScore(old(Current()), depth, alpha, beta).1
      decreases Plies(depth), 3, 0
    {
      nodeCounter := nodeCounter + 1;
      var over := engine.IsGameOver();
      if over {
        score := MateOrStalemate(depth);
        return;
      }
      if depth <= 0 {
        score := evaluator.EvaluatePosition();
        return;
      }
      score := Expand(depth, alpha, beta);
    }

    /** The search part of _alpha_beta, after the node is counted. */
    method Expand(depth: int, alpha: int, beta: int) returns (score: int)
      requires evaluator.engine == engine && depth > 0 && SearchOk(engine.Game())
      modifies this`nodeCounter, evaluator`evalCounter
      modifies engine`board, engine`pieces, engine`whiteTurn, engine`checkmate, engine`stalemate
      modifies engine`nextPieceId, engine`moveHistory, engine.rules`enPassantTarget, engine.rules`castlingRights
      ensures score == ExpandScore(old(Current()), depth, alpha, beta).0
      ensures Current() == ExpandScore(old(Current()), depth, alpha, beta).1
      decreases Plies(depth), 2, 2
    {
      var colour := if engine.whiteTurn then WHITE else BLACK;
      var moves := engine.GenerateMoves(colour);
      score := ExpandGenerated(old(Current()), moves, depth, alpha, beta);
    }

    /** The part of _alpha_beta after generate_moves: without legal moves
      the position scores as mate or stalemate, otherwise the moves are
      ordered and searched. */
    method ExpandGenerated(ghost w: World, moves: seq<MMove>, depth: int, alpha: int, beta: int) returns (score: int)
      requires evaluator.engine == engine && depth > 0 && SearchOk(w.game)
      requires var s := w.game.state;
        var (legal, b) := GenerateMoves(s, SideToMove(s));
        moves == legal && engine.Game() == w.game.(state := s.(board := b)) &&
        nodeCounter == w.nodes && evaluator.evalCounter == w.evals
      modifies this`nodeCounter, evaluator`evalCounter
      modifies engine`board, engine`pieces, engine`whiteTurn, engine`checkmate, engine`stalemate
      modifies engine`nextPieceId, engine`moveHistory, engine.rules`enPassantTarget, engine.rules`castlingRights
      ensures score == ExpandScore(w, depth, alpha, beta).0
      ensures Current() == ExpandScore(w, depth, alpha, beta).1
      decreases Plies(depth), 2, 1
    {
      if |moves| == 0 {
        score := MateOrStalemate(depth);
        ExpandWithoutMoves(w, Current(), depth, alpha, beta);
        return;
      }
      var ordered := OrderMovesOf(moves);
      ExpandSearches(w, Current(), ordered, depth, alpha, beta);
      score := SearchMoves(ordered, depth, alpha, beta);
    }

    /** The move loop of _alpha_beta. */
    method SearchMoves(ms: seq<MMove>, depth: int, alpha: int, beta: int) returns (best: int)
      requires evaluator.engine == engine && depth > 0 && SearchOk(engine.Game()) && MovesOk(ms)
      modifies this`nodeCounter, evaluator`evalCounter
      modifies engine`board, engine`pieces, engine`whiteTurn, engine`checkmate, engine`stalemate
      modifies engine`nextPieceId, engine`moveHistory, engine.rules`enPassantTarget, engine.rules`castlingRights
      ensures best == LoopScore(old(Current()), ms, depth, alpha, beta, FLOOR).0
      ensures Current() == LoopScore(old(Current()), ms, depth, alpha, beta, FLOOR).1
      decreases depth, 2, 0
    {
      ghost var result := LoopScore(Current(), ms, depth, alpha, beta, FLOOR);
      best := FLOOR;
      var a := alpha;
      var i := 0;
      while i < |ms|
        invariant 0 <= i <= |ms| && SearchOk(engine.Game())
        invariant LoopScore(Current(), ms[i..], depth, a, beta, best).0 == result.0
        invariant LoopScore(Current(), ms[i..], depth, a, beta, best).1 == result.1
        decreases |ms| - i
      {
        assert ms[i..][0] == ms[i] && ms[i..][1..] == ms[i + 1..];
        var made, score := TryMove(ms[i], depth, a, beta);
        if made {
          if score > best {
            best := score;
          }
          if score > a {
            a := score;
          }
          if a >= beta {
            return;
          }
        }
        i := i + 1;
      }
    }

    /** make_move, the reply search, undo_move. */
    method TryMove(m: MMove, depth: int, alpha: int, beta: int) returns (made: bool, score: int)
      requires evaluator.engine == engine && depth > 0 && SearchOk(engine.Game()) && MoveOk(m)
      modifies this`nodeCounter, evaluator`evalCounter
      modifies engine`board, engine`pieces, engine`whiteTurn, engine`checkmate, engine`stalemate
      modifies engine`nextPieceId, engine`moveHistory, engine.rules`enPassantTarget, engine.rules`castlingRights
      ensures made == PlayAndScore(old(Current()), m, depth, alpha, beta).0
      ensures score == PlayAndScore(old(Current()), m, depth, alpha, beta).1
      ensures Current() == PlayAndScore(old(Current()), m, depth, alpha, beta).2
      decreases depth, 1, 0
    {
      ghost var w := Current();
      MakeMoveKeepsSearchOk(w.game, m);
      made := engine.MakeMove(m);
      ghost var g1 := engine.Game();
      assert made == MakeMove(w.game, m).0 && g1 == MakeMove(w.game, m).1;
      assert Current() == w.(game := g1);
      if !made {
        score := 0;
        PlayAndScoreRejected(w, m, depth, alpha, beta);
        return;
      }
      PlayAndScorePlayed(w, m, depth, alpha, beta);
      ghost var w1 := w.(game := g1);
      score := ReplyAndUndo(w1, ReplyDepth(depth), Negated(beta), Negated(alpha));
    }

    /** The reply search, on the window the caller negated and swapped,
      then undo_move. */
    method ReplyAndUndo(ghost w1: World, depth: int, alpha: int, beta: int) returns (score: int)
      requires evaluator.engine == engine && SearchOk(w1.game) && Current() == w1 && depth >= 0
      modifies this`nodeCounter, evaluator`evalCounter
      modifies engine`board, engine`pieces, engine`whiteTurn, engine`checkmate, engine`stalemate
      modifies engine`nextPieceId, engine`moveHistory, engine.rules`enPassantTarget, engine.rules`castlingRights
      ensures score == -NodeScore(w1, depth, alpha, beta).0
      ensures var w2 := NodeScore(w1, depth, alpha, beta).1;
        Current() == w2.(game := Undo(w2.game).1)
      decreases depth + 1, 0, 0
    {
      var reply := AlphaBeta(depth, alpha, beta);
      ghost var w2 := Current();
      score := -reply;
      var _ := engine.UndoMove();
      assert Current() == w2.(game := Undo(w2.game).1);
    }

    /** computer_move: None without a legal move, else the move whose
      score last raised the best score of the full-window search. */
    method ComputerMove() returns (bestMove: Option<MMove>)
      requires evaluator.engine == engine && SearchOk(engine.Game())
      modifies this`nodeCounter, this`moveCounter, evaluator`evalCounter
      modifies engine`board, engine`pieces, engine`whiteTurn, engine`checkmate, engine`stalemate
      modifies engine`nextPieceId, engine`moveHistory, engine.rules`enPassantTarget, engine.rules`castlingRights
      ensures bestMove == ChosenMove(old(Current())).0
      ensures Current() == ChosenMove(old(Current())).1
      ensures moveCounter == ChosenMove(old(Current())).2
    {
      nodeCounter := 0;
      moveCounter := 0;
      var colour := if engine.whiteTurn then WHITE else BLACK;
      var allMoves := engine.GenerateMoves(colour);
      bestMove := SearchGenerated(old(Current()), allMoves);
    }

    /** The part of computer_move after generate_moves: None without legal
      moves, otherwise the moves are ordered and searched. */
    method SearchGenerated(ghost w: World, allMoves: seq<MMove>) returns (bestMove: Option<MMove>)
      requires evaluator.engine == engine && SearchOk(w.game)
      requires var s := w.game.state;
        var (moves, b) := GenerateMoves(s, SideToMove(s));
        allMoves == moves &&
        engine.Game() == w.game.(state := s.(board := b)) &&
        nodeCounter == 0 && evaluator.evalCounter == w.evals && moveCounter == 0
      modifies this`nodeCounter, this`moveCounter, evaluator`evalCounter
      modifies engine`board, engine`pieces, engine`whiteTurn, engine`checkmate, engine`stalemate
      modifies engine`nextPieceId, engine`moveHistory, engine.rules`enPassantTarget, engine.rules`castlingRights
      ensures bestMove == ChosenMove(w).0
      ensures Current() == ChosenMove(w).1
      ensures moveCounter == ChosenMove(w).2
    {
      if |allMoves| == 0 {
        return None;
      }
      var sorted := OrderMovesOf(allMoves);
      ChosenMoveSearches(w, Current(), sorted);
      bestMove := SearchRoot(sorted);
    }

    /** The move loop of computer_move, on the full window. */
    method SearchRoot(sorted: seq<MMove>) returns (bestMove: Option<MMove>)
      requires evaluator.engine == engine && SearchOk(engine.Game()) && MovesOk(sorted)
      modifies this`nodeCounter, this`moveCounter, evaluator`evalCounter
      modifies engine`board, engine`pieces, engine`whiteTurn, engine`checkmate, engine`stalemate
      modifies engine`nextPieceId, engine`moveHistory, engine.rules`enPassantTarget, engine.rules`castlingRights
      ensures bestMove == RootChoice(old(Current()), sorted, FLOOR, CEILING, FLOOR, None).0
      ensures Current() == RootChoice(old(Current()), sorted, FLOOR, CEILING, FLOOR, None).1
      ensures moveCounter == old(moveCounter) + RootChoice(old(Current()), sorted, FLOOR, CEILING, FLOOR, None).2
    {
      bestMove := None;
      var bestScore := FLOOR;
      var alpha := FLOOR;
      var beta := CEILING;
      ghost var result := RootChoice(Current(), sorted, alpha, beta, bestScore, bestMove);
      var i := 0;
      while i < |sorted|
        invariant 0 <= i <= |sorted| && SearchOk(engine.Game())
        invariant RootChoice(Current(), sorted[i..], alpha, beta, bestScore, bestMove).0 == result.0
        invariant RootChoice(Current(), sorted[i..], alpha, beta, bestScore, bestMove).1 == result.1
        invariant moveCounter - old(moveCounter) + RootChoice(Current(), sorted[i..], alpha, beta, bestScore, bestMove).2 == result.2
        decreases |sorted| - i
      {
        assert sorted[i..][0] == sorted[i] && sorted[i..][1..] == sorted[i + 1..];
        moveCounter := moveCounter + 1;
        ghost var w := Current();
        var made, score := TryMove(sorted[i], SEARCH_DEPTH, alpha, beta);
        ghost var alpha0, best0, bestMove0 := alpha, bestScore, bestMove;
        if made {
          if score > bestScore {
            bestScore := score;
            bestMove := Some(sorted[i]);
          }
          if score > alpha {
            alpha := score;
          }
          if alpha >= beta {
            RootChoiceCutoff(w, sorted[i..], alpha0, beta, best0, bestMove0, score, Current());
            return;
          }
          RootChoicePlay(w, sorted[i..], alpha0, beta, best0, bestMove0, score, Current(), alpha, bestScore, bestMove);
        } else {
          RootChoiceSkip(w, sorted[i..], alpha, beta, bestScore, bestMove, Current());
        }
        i := i + 1;
      }
    }
  }
}
