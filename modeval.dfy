/** The modular engine's PositionEvaluator
    (chessteg_modular/engine/evaluation.py): the integer scoring terms as
    functions of the roster, the evaluator object with its eval_counter, and
    the colour-mirror symmetry of the terms.  Mirroring a position swaps the
    colour of every piece and moves board row r to row 11 - r; a score from
    White's point of view should change sign. */
module ModEval {
  import opened Common
  import opened ModState
  import opened ModMoves
  import opened ModPlay
  import opened ModEngine
  import Notation

  // ---------------------------------------------------------------------
  // Sums over the roster

  /** The sum of `term` over a roster, accumulated front to back as the
      scoring loops do. */
  function Total(ps: seq<MPiece>, term: MPiece -> int): int
  {
    if |ps| == 0 then 0 else Total(ps[..|ps| - 1], term) + term(ps[|ps| - 1])
  }

  lemma {:induction false} TotalAppend(a: seq<MPiece>, b: seq<MPiece>, term: MPiece -> int)
    ensures Total(a + b, term) == Total(a, term) + Total(b, term)
    decreases |b|
  {
    if |b| > 0 {
      assert (a + b)[..|a + b| - 1] == a + b[..|b| - 1];
      TotalAppend(a, b[..|b| - 1], term);
    } else {
      assert a + b == a;
    }
  }

  /** Two rosters whose entries score opposite amounts, entry by entry,
      have opposite totals. */
  lemma {:induction false} TotalOpposite(a: seq<MPiece>, b: seq<MPiece>, term: MPiece -> int)
    requires |a| == |b|
    requires forall i :: 0 <= i < |a| ==> term(b[i]) == -term(a[i])
    ensures Total(b, term) == -Total(a, term)
    decreases |a|
  {
    if |a| > 0 {
      TotalOpposite(a[..|a| - 1], b[..|b| - 1], term);
    }
  }

  // ---------------------------------------------------------------------
  // The colour mirror

  /** Row r becomes row 11 - r; the column stays. */
  function MirrorSquare(q: int): (m: int)
    ensures Row(m) == 11 - Row(q) && Col(m) == Col(q)
    ensures IsValidPosition(m) <==> IsValidPosition(q)
  {
    var m := (11 - q / 10) * 10 + q % 10;
    DivModOfRowCol(11 - q / 10, q % 10);
    m
  }

  lemma DivModOfRowCol(r: int, c: int)
    requires 0 <= c < 10
    ensures (r * 10 + c) / 10 == r && (r * 10 + c) % 10 == c
  {
  }

  lemma MirrorSquareInjective(p: int, q: int)
    requires MirrorSquare(p) == MirrorSquare(q)
    ensures p == q
  {
    assert Row(p) == Row(q) && Col(p) == Col(q);
    assert p == Row(p) * 10 + Col(p);
    assert q == Row(q) * 10 + Col(q);
  }

  function MirrorPiece(p: MPiece): MPiece
  {
    p.(colour := -p.colour, pos := MirrorSquare(p.pos))
  }

  function MirrorRoster(ps: seq<MPiece>): (r: seq<MPiece>)
    ensures |r| == |ps| && forall i :: 0 <= i < |ps| ==> r[i] == MirrorPiece(ps[i])
  {
    seq(|ps|, i requires 0 <= i < |ps| => MirrorPiece(ps[i]))
  }

  /** A term that changes sign on every mirrored entry changes the sign of
      the total. */
  lemma TotalMirror(ps: seq<MPiece>, term: MPiece -> int)
    requires forall i :: 0 <= i < |ps| ==> term(MirrorPiece(ps[i])) == -term(ps[i])
    ensures Total(MirrorRoster(ps), term) == -Total(ps, term)
  {
    TotalOpposite(ps, MirrorRoster(ps), term);
  }

  /** get_piece_at finds the mirrored entry on the mirrored square. */
  lemma PieceAtMirror(ps: seq<MPiece>, q: int)
    ensures PieceAt(MirrorRoster(ps), MirrorSquare(q)) == PieceAt(ps, q)
  {
    var ms := MirrorRoster(ps);
    forall j | 0 <= j < |ps|
      ensures (ms[j].pos == MirrorSquare(q)) == (ps[j].pos == q)
    {
      if ms[j].pos == MirrorSquare(q) {
        MirrorSquareInjective(ps[j].pos, q);
      }
    }
  }

  /** get_king of the mirrored roster finds the king of the other colour. */
  lemma KingMirror(ps: seq<MPiece>, colour: int)
    ensures King(MirrorRoster(ps), -colour) == King(ps, colour)
  {
  }

  // ---------------------------------------------------------------------
  // _evaluate_material

  /** evaluation_table['material'].get(type, 0). */
  function MaterialValue(kind: int): (v: int)
    ensures v >= 0
    ensures v > 0 <==> IsKind(kind)
    ensures v >= 20000 <==> kind == KING
  {
    if kind == PAWN then 100
    else if kind == KNIGHT then 320
    else if kind == BISHOP then 330
    else if kind == ROOK then 500
    else if kind == QUEEN then 900
    else if kind == KING then 20000
    else 0
  }

  /** A live entry adds its value when its colour is 1 and subtracts it
      otherwise; a captured one is skipped. */
  function MaterialTerm(p: MPiece): int
  {
    if p.captured then 0
    else if p.colour == WHITE then MaterialValue(p.kind)
    else -MaterialValue(p.kind)
  }

  function Material(ps: seq<MPiece>): int
  {
    Total(ps, MaterialTerm)
  }

  /** The material of one side: the values of its live entries. */
  function SideMaterial(ps: seq<MPiece>, colour: int): (v: int)
    ensures v >= 0
    decreases |ps|
  {
    if |ps| == 0 then 0
    else
      var p := ps[|ps| - 1];
      SideMaterial(ps[..|ps| - 1], colour) + (if !p.captured && p.colour == colour then MaterialValue(p.kind) else 0)
  }

  /** With colours +1 and -1 only, the material score is White's material
      minus Black's. */
  lemma {:induction false} MaterialIsDifference(ps: seq<MPiece>)
    requires ColoursOk(ps)
    ensures Material(ps) == SideMaterial(ps, WHITE) - SideMaterial(ps, BLACK)
    decreases |ps|
  {
    if |ps| > 0 {
      MaterialIsDifference(ps[..|ps| - 1]);
    }
  }

  lemma MaterialMirror(ps: seq<MPiece>)
    requires ColoursOk(ps)
    ensures Material(MirrorRoster(ps)) == -Material(ps)
  {
    TotalMirror(ps, MaterialTerm);
  }

  // ---------------------------------------------------------------------
  // _evaluate_piece_squares

  const PAWN_TABLE: seq<seq<int>> := [
    [0, 0, 0, 0, 0, 0, 0, 0],
    [50, 50, 50, 50, 50, 50, 50, 50],
    [10, 10, 20, 30, 30, 20, 10, 10],
    [5, 5, 10, 25, 25, 10, 5, 5],
    [0, 0, 0, 20, 20, 0, 0, 0],
    [5, -5, -10, 0, 0, -10, -5, 5],
    [5, 10, 10, -20, -20, 10, 10, 5],
    [0, 0, 0, 0, 0, 0, 0, 0]]

  const KNIGHT_TABLE: seq<seq<int>> := [
    [-50, -40, -30, -30, -30, -30, -40, -50],
    [-40, -20, 0, 5, 5, 0, -20, -40],
    [-30, 5, 10, 15, 15, 10, 5, -30],
    [-30, 0, 15, 20, 20, 15, 0, -30],
    [-30, 5, 15, 20, 20, 15, 5, -30],
    [-30, 0, 10, 15, 15, 10, 0, -30],
    [-40, -20, 0, 0, 0, 0, -20, -40],
    [-50, -40, -30, -30, -30, -30, -40, -50]]

  const BISHOP_TABLE: seq<seq<int>> := [
    [-20, -10, -10, -10, -10, -10, -10, -20],
    [-10, 0, 0, 0, 0, 0, 0, -10],
    [-10, 0, 5, 10, 10, 5, 0, -10],
    [-10, 5, 5, 10, 10, 5, 5, -10],
    [-10, 0, 10, 10, 10, 10, 0, -10],
    [-10, 10, 10, 10, 10, 10, 10, -10],
    [-10, 5, 0, 0, 0, 0, 5, -10],
    [-20, -10, -10, -10, -10, -10, -10, -20]]

  const ROOK_TABLE: seq<seq<int>> := [
    [0, 0, 0, 5, 5, 0, 0, 0],
    [-5, 0, 0, 0, 0, 0, 0, -5],
    [-5, 0, 0, 0, 0, 0, 0, -5],
    [-5, 0, 0, 0, 0, 0, 0, -5],
    [-5, 0, 0, 0, 0, 0, 0, -5],
    [-5, 0, 0, 0, 0, 0, 0, -5],
    [5, 10, 10, 10, 10, 10, 10, 5],
    [0, 0, 0, 0, 0, 0, 0, 0]]

  const QUEEN_TABLE: seq<seq<int>> := [
    [-20, -10, -10, -5, -5, -10, -10, -20],
    [-10, 0, 5, 0, 0, 0, 0, -10],
    [-10, 5, 5, 5, 5, 5, 0, -10],
    [0, 0, 5, 5, 5, 5, 0, -5],
    [-5, 0, 5, 5, 5, 5, 0, -5],
    [-10, 0, 5, 5, 5, 5, 0, -10],
    [-10, 0, 0, 0, 0, 0, 0, -10],
    [-20, -10, -10, -5, -5, -10, -10, -20]]

  const KING_TABLE: seq<seq<int>> := [
    [20, 30, 10, 0, 0, 10, 30, 20],
    [20, 20, 0, 0, 0, 0, 20, 20],
    [-10, -20, -20, -20, -20, -20, -20, -10],
    [-20, -30, -30, -40, -40, -30, -30, -20],
    [-30, -40, -40, -50, -50, -40, -40, -30],
    [-30, -40, -40, -50, -50, -40, -40, -30],
    [-30, -40, -40, -50, -50, -40, -40, -30],
    [-30, -40, -40, -50, -50, -40, -40, -30]]

  predicate IsTable(t: seq<seq<int>>)
  {
    |t| == 8 && forall r :: 0 <= r < 8 ==> |t[r]| == 8
  }

  /** evaluation_table['position'][type]: one 8x8 table per known kind. */
  function PositionTable(kind: int): (t: seq<seq<int>>)
    requires IsKind(kind)
    ensures IsTable(t)
  {
    if kind == PAWN then PAWN_TABLE
    else if kind == KNIGHT then KNIGHT_TABLE
    else if kind == BISHOP then BISHOP_TABLE
    else if kind == ROOK then ROOK_TABLE
    else if kind == QUEEN then QUEEN_TABLE
    else KING_TABLE
  }

  /** max(0, min(7, x)). */
  function Clamp(x: int): (c: int)
    ensures 0 <= c <= 7
    ensures 0 <= x <= 7 ==> c == x
    ensures x < 0 ==> c == 0
    ensures x > 7 ==> c == 7
  {
    if x < 0 then 0 else if x > 7 then 7 else x
  }

  /** The table row: board_row - 2 for White, 7 - (board_row - 2) for any
      other colour, clamped.  On a playable square the clamp never acts. */
  function TableRow(colour: int, position: int): (row: int)
    ensures 0 <= row <= 7
    ensures IsValidPosition(position) && colour == WHITE ==> row == Row(position) - 2
    ensures IsValidPosition(position) && colour != WHITE ==> row == 9 - Row(position)
  {
    Clamp(if colour == WHITE then Row(position) - 2 else 7 - (Row(position) - 2))
  }

  /** The table column board_col - 1, clamped. */
  function TableCol(position: int): (col: int)
    ensures 0 <= col <= 7
    ensures IsValidPosition(position) ==> col == Col(position) - 1
  {
    Clamp(Col(position) - 1)
  }

  /** A live entry's table value, added for colour 1 and subtracted
      otherwise.  A live entry of an unknown kind makes the source raise
      KeyError; PieceSquares excludes it, and the term is 0 there. */
  function SquareTerm(p: MPiece): int
  {
    if p.captured || !IsKind(p.kind) then 0
    else
      var v := PositionTable(p.kind)[TableRow(p.colour, p.pos)][TableCol(p.pos)];
      if p.colour == WHITE then v else -v
  }

  predicate KindsKnown(ps: seq<MPiece>)
  {
    forall i :: 0 <= i < |ps| ==> !ps[i].captured ==> IsKind(ps[i].kind)
  }

  function PieceSquares(ps: seq<MPiece>): int
    requires KindsKnown(ps)
  {
    Total(ps, SquareTerm)
  }

  /** A mirrored entry reads the same table cell with the other sign. */
  lemma SquareTermMirror(p: MPiece)
    requires IsColour(p.colour)
    ensures SquareTerm(MirrorPiece(p)) == -SquareTerm(p)
  {
    var m := MirrorPiece(p);
    assert TableCol(m.pos) == TableCol(p.pos);
    assert TableRow(m.colour, m.pos) == TableRow(p.colour, p.pos);
  }

  lemma PieceSquaresMirror(ps: seq<MPiece>)
    requires ColoursOk(ps) && KindsKnown(ps)
    ensures KindsKnown(MirrorRoster(ps))
    ensures PieceSquares(MirrorRoster(ps)) == -PieceSquares(ps)
  {
    forall i | 0 <= i < |ps|
      ensures SquareTerm(MirrorPiece(ps[i])) == -SquareTerm(ps[i])
    {
      SquareTermMirror(ps[i]);
    }
    TotalMirror(ps, SquareTerm);
  }

  /** Material plus piece-square score changes sign when every piece swaps
      colour and row r becomes row 11 - r. */
  lemma MaterialAndSquaresMirror(ps: seq<MPiece>)
    requires ColoursOk(ps) && KindsKnown(ps)
    ensures KindsKnown(MirrorRoster(ps))
    ensures Material(MirrorRoster(ps)) + PieceSquares(MirrorRoster(ps)) == -(Material(ps) + PieceSquares(ps))
  {
    MaterialMirror(ps);
    PieceSquaresMirror(ps);
  }

  // ---------------------------------------------------------------------
  // The start position is balanced

  /** White's pieces of the start layout (entries 16..31) are Black's
      (entries 0..15) mirrored: the officers 24..31 mirror 0..7 and the
      pawns 16..23 mirror 8..15. */
  lemma StartLayoutMirrored()
    ensures forall i :: 0 <= i < 8 ==> StartPiece(24 + i) == MirrorPiece(StartPiece(i)).(id := 25 + i)
    ensures forall i :: 8 <= i < 16 ==> StartPiece(8 + i) == MirrorPiece(StartPiece(i)).(id := 9 + i)
  {
    StartOfficersMirrored();
    StartPawnsMirrored();
  }

  lemma StartOfficersMirrored()
    ensures forall i :: 0 <= i < 8 ==> START_LAYOUT[24 + i] == (START_LAYOUT[i].0, -START_LAYOUT[i].1, START_LAYOUT[i].2 - 70)
  {
  }

  lemma StartPawnsMirrored()
    ensures forall i :: 8 <= i < 16 ==> START_LAYOUT[8 + i] == (START_LAYOUT[i].0, -START_LAYOUT[i].1, START_LAYOUT[i].2 - 50)
  {
  }

  /** Entry by entry opposite in a term that ignores the id. */
  lemma StartBlocksOpposite(term: MPiece -> int)
    requires forall p: MPiece, n: int :: term(p.(id := n)) == term(p)
    requires forall i :: 0 <= i < 32 ==> term(MirrorPiece(StartPiece(i))) == -term(StartPiece(i))
    ensures Total(StartPieces(32), term) == 0
  {
    var ps := StartPieces(32);
    var a, b, c, d := ps[..8], ps[8..16], ps[16..24], ps[24..];
    assert ps == a + b + c + d;
    TotalAppend(a + b + c, d, term);
    TotalAppend(a + b, c, term);
    TotalAppend(a, b, term);
    StartLayoutMirrored();
    forall i | 0 <= i < 8
      ensures term(d[i]) == -term(a[i]) && term(c[i]) == -term(b[i])
    {
      assert d[i] == MirrorPiece(StartPiece(i)).(id := 25 + i);
      assert c[i] == MirrorPiece(StartPiece(8 + i)).(id := 17 + i);
    }
    TotalOpposite(a, d, term);
    TotalOpposite(b, c, term);
  }

  /** The initial position scores 0 in material and in piece squares. */
  lemma StartPositionBalanced()
    ensures KindsKnown(StartPieces(32))
    ensures Material(StartPieces(32)) == 0
    ensures PieceSquares(StartPieces(32)) == 0
  {
    StartRosterOk();
    forall i | 0 <= i < 32
      ensures MaterialTerm(MirrorPiece(StartPiece(i))) == -MaterialTerm(StartPiece(i))
      ensures SquareTerm(MirrorPiece(StartPiece(i))) == -SquareTerm(StartPiece(i))
    {
      SquareTermMirror(StartPiece(i));
    }
    StartBlocksOpposite(MaterialTerm);
    StartBlocksOpposite(SquareTerm);
  }

  // ---------------------------------------------------------------------
  // evaluate_position

  const MATE_EVAL: int := 30000

  /** Checkmate is tested first and only counts when the side to move is in
      check; then stalemate; otherwise the material alone. */
  function PositionScore(s: MState): int
  {
    var mover := if s.whiteTurn then WHITE else BLACK;
    if s.checkmate && KingInCheck(s.pieces, mover) then
      (if mover == WHITE then -MATE_EVAL else MATE_EVAL)
    else if s.stalemate then 0
    else Material(s.pieces)
  }

  /** The score is from White's point of view: a mated White scores
      -30000 and a mated Black +30000; a stalemate scores 0; a position
      with no end flag scores its material, White's minus Black's. */
  lemma PositionScoreMeaning(s: MState)
    requires ColoursOk(s.pieces)
    ensures s.checkmate && s.whiteTurn && KingInCheck(s.pieces, WHITE) ==> PositionScore(s) == -MATE_EVAL
    ensures s.checkmate && !s.whiteTurn && KingInCheck(s.pieces, BLACK) ==> PositionScore(s) == MATE_EVAL
    ensures s.stalemate && !s.checkmate ==> PositionScore(s) == 0
    ensures !s.checkmate && !s.stalemate ==>
              PositionScore(s) == SideMaterial(s.pieces, WHITE) - SideMaterial(s.pieces, BLACK)
  {
    MaterialIsDifference(s.pieces);
  }

  /** The initial position evaluates to 0. */
  lemma StartPositionScoresZero(s: MState)
    requires s.pieces == StartPieces(32) && !s.checkmate && !s.stalemate
    ensures PositionScore(s) == 0
  {
    StartPositionBalanced();
  }

  // ---------------------------------------------------------------------
  // _count_pawn_shield and _evaluate_king_safety

  /** The square _count_pawn_shield inspects: the row below the king for
      White (king_row - 1) and above it for Black (king_row + 1), on the
      king's file plus the offset. */
  function ShieldSquare(kingPos: int, colour: int, offset: int): int
  {
    (if colour == WHITE then Row(kingPos) - 1 else Row(kingPos) + 1) * 10 + Col(kingPos) + offset
  }

  /** The first live entry on the square is a pawn of the colour. */
  predicate OwnPawnOn(ps: seq<MPiece>, position: int, colour: int)
  {
    var at := PieceAt(ps, position);
    at.Some? && ps[at.value].kind == PAWN && ps[at.value].colour == colour
  }

  function ShieldPoint(ps: seq<MPiece>, kingPos: int, colour: int, offset: int): (n: nat)
    ensures n <= 1
  {
    if 1 <= Col(kingPos) + offset <= 8 && OwnPawnOn(ps, ShieldSquare(kingPos, colour, offset), colour) then 1 else 0
  }

  /** The number of own pawns on the three inspected squares. */
  function PawnShield(ps: seq<MPiece>, kingPos: int, colour: int): (n: nat)
    ensures n <= 3
  {
    ShieldPoint(ps, kingPos, colour, -1) + ShieldPoint(ps, kingPos, colour, 0) + ShieldPoint(ps, kingPos, colour, 1)
  }

  /** One king's safety: -30 on files 3..6, +10 elsewhere, and -10 per
      missing shield pawn; 0 without a live king of the colour. */
  function KingTerm(ps: seq<MPiece>, colour: int): (t: int)
    ensures -60 <= t <= 10
  {
    match King(ps, colour)
    case None => 0
    case Some(k) =>
      var kingPos := ps[k].pos;
      (if 3 <= Col(kingPos) <= 6 then -30 else 10) + (3 - PawnShield(ps, kingPos, colour)) * -10
  }

  /** White's king term added, Black's subtracted. */
  function KingSafety(ps: seq<MPiece>): (score: int)
    ensures -70 <= score <= 70
  {
    KingTerm(ps, WHITE) - KingTerm(ps, BLACK)
  }

  /** The mirrored king inspects the mirrored squares: both colours look at
      the row on their own side of the king. */
  lemma ShieldSquareMirror(kingPos: int, colour: int, offset: int)
    requires IsColour(colour) && 0 <= Col(kingPos) + offset <= 9
    ensures ShieldSquare(MirrorSquare(kingPos), -colour, offset) == MirrorSquare(ShieldSquare(kingPos, colour, offset))
  {
    var r := if colour == WHITE then Row(kingPos) - 1 else Row(kingPos) + 1;
    DivModOfRowCol(r, Col(kingPos) + offset);
  }

  lemma ShieldPointMirror(ps: seq<MPiece>, kingPos: int, colour: int, offset: int)
    requires IsColour(colour) && -1 <= offset <= 1
    ensures ShieldPoint(MirrorRoster(ps), MirrorSquare(kingPos), -colour, offset) == ShieldPoint(ps, kingPos, colour, offset)
  {
    if 1 <= Col(kingPos) + offset <= 8 {
      ShieldSquareMirror(kingPos, colour, offset);
      PieceAtMirror(ps, ShieldSquare(kingPos, colour, offset));
    }
  }

  lemma KingTermMirror(ps: seq<MPiece>, colour: int)
    requires IsColour(colour)
    ensures KingTerm(MirrorRoster(ps), -colour) == KingTerm(ps, colour)
  {
    KingMirror(ps, colour);
    var k := King(ps, colour);
    if k.Some? {
      var kingPos := ps[k.value].pos;
      ShieldPointMirror(ps, kingPos, colour, -1);
      ShieldPointMirror(ps, kingPos, colour, 0);
      ShieldPointMirror(ps, kingPos, colour, 1);
    }
  }

  /** King safety changes sign in the mirrored position. */
  lemma KingSafetyMirror(ps: seq<MPiece>)
    ensures KingSafety(MirrorRoster(ps)) == -KingSafety(ps)
  {
    KingTermMirror(ps, WHITE);
    KingTermMirror(ps, BLACK);
  }

  /** The evident intent of the shield ("the row in front of the king"):
      the row towards the opponent, king_row + 1 for White and
      king_row - 1 for Black. */
  function ShieldSquareIntended(kingPos: int, colour: int, offset: int): int
  {
    (Row(kingPos) + (if colour == WHITE then 1 else -1)) * 10 + Col(kingPos) + offset
  }

  function ShieldPointIntended(ps: seq<MPiece>, kingPos: int, colour: int, offset: int): (n: nat)
    ensures n <= 1
  {
    if 1 <= Col(kingPos) + offset <= 8 && OwnPawnOn(ps, ShieldSquareIntended(kingPos, colour, offset), colour) then 1 else 0
  }

  function PawnShieldIntended(ps: seq<MPiece>, kingPos: int, colour: int): (n: nat)
    ensures n <= 3
  {
    ShieldPointIntended(ps, kingPos, colour, -1) + ShieldPointIntended(ps, kingPos, colour, 0)
      + ShieldPointIntended(ps, kingPos, colour, 1)
  }

  /** In the initial position both kings stand behind three own pawns.  As
      written the shield counts none of them (White looks at row 1, Black
      at row 10, both outside the board); the intended shield counts all
      three. */
  lemma StartShieldsMissed()
    ensures PawnShield(StartPieces(32), 25, WHITE) == 0 && PawnShield(StartPieces(32), 95, BLACK) == 0
    ensures PawnShieldIntended(StartPieces(32), 25, WHITE) == 3
    ensures PawnShieldIntended(StartPieces(32), 95, BLACK) == 3
  {
    var ps := StartPieces(32);
    StartLayoutSquares();
    NoShieldOffBoard(ps, 25, WHITE);
    NoShieldOffBoard(ps, 95, BLACK);
    WhiteShieldPawns(ps);
    FullShieldIntended(ps, 25, WHITE);
    BlackShieldPawns(ps);
    FullShieldIntended(ps, 95, BLACK);
  }

  /** A shield row outside 2..9 holds no live entry of a roster on the
      playable squares. */
  lemma NoShieldOffBoard(ps: seq<MPiece>, kingPos: int, colour: int)
    requires forall i :: 0 <= i < |ps| ==> 21 <= ps[i].pos <= 98
    requires var r := if colour == WHITE then Row(kingPos) - 1 else Row(kingPos) + 1; r < 2 || r > 9
    ensures PawnShield(ps, kingPos, colour) == 0
  {
    forall offset | -1 <= offset <= 1 && 1 <= Col(kingPos) + offset <= 8
      ensures PieceAt(ps, ShieldSquare(kingPos, colour, offset)) == None
    {
      var q := ShieldSquare(kingPos, colour, offset);
      var r := if colour == WHITE then Row(kingPos) - 1 else Row(kingPos) + 1;
      assert q < 21 || q > 98;
    }
  }

  lemma FullShieldIntended(ps: seq<MPiece>, kingPos: int, colour: int)
    requires 2 <= Col(kingPos) <= 7
    requires forall offset :: -1 <= offset <= 1 ==> OwnPawnOn(ps, ShieldSquareIntended(kingPos, colour, offset), colour)
    ensures PawnShieldIntended(ps, kingPos, colour) == 3
  {
    assert OwnPawnOn(ps, ShieldSquareIntended(kingPos, colour, -1), colour);
    assert OwnPawnOn(ps, ShieldSquareIntended(kingPos, colour, 0), colour);
    assert OwnPawnOn(ps, ShieldSquareIntended(kingPos, colour, 1), colour);
  }

  /** get_piece_at finds entry i when it is live on the square and no
      earlier entry stands there. */
  lemma PieceAtIs(ps: seq<MPiece>, q: int, i: nat)
    requires i < |ps| && !ps[i].captured && ps[i].pos == q
    requires forall j :: 0 <= j < i ==> ps[j].pos != q
    ensures PieceAt(ps, q) == Some(i)
  {
  }

  lemma OwnPawnAt(ps: seq<MPiece>, q: int, i: nat, colour: int)
    requires i < |ps| && !ps[i].captured && ps[i].pos == q && ps[i].kind == PAWN && ps[i].colour == colour
    requires forall j :: 0 <= j < i ==> ps[j].pos != q
    ensures OwnPawnOn(ps, q, colour)
  {
    PieceAtIs(ps, q, i);
  }

  /** Black's entries stand on rows 8 and 9, White's pawns on row 3 in
      file order. */
  lemma StartLayoutRows()
    ensures forall k :: 0 <= k < 16 ==> START_LAYOUT[k].2 >= 81
    ensures forall k :: 0 <= k < 8 ==> START_LAYOUT[k].2 >= 91
    ensures forall k :: 8 <= k < 16 ==> START_LAYOUT[k] == (PAWN, BLACK, 73 + k)
    ensures forall k :: 16 <= k < 24 ==> START_LAYOUT[k] == (PAWN, WHITE, 15 + k)
  {
  }

  lemma WhiteShieldPawns(ps: seq<MPiece>)
    requires ps == StartPieces(32)
    ensures forall offset :: -1 <= offset <= 1 ==> OwnPawnOn(ps, ShieldSquareIntended(25, WHITE, offset), WHITE)
  {
    StartLayoutRows();
    forall offset | -1 <= offset <= 1
      ensures OwnPawnOn(ps, ShieldSquareIntended(25, WHITE, offset), WHITE)
    {
      assert ShieldSquareIntended(25, WHITE, offset) == 35 + offset;
      OwnPawnAt(ps, 35 + offset, 20 + offset, WHITE);
    }
  }

  lemma BlackShieldPawns(ps: seq<MPiece>)
    requires ps == StartPieces(32)
    ensures forall offset :: -1 <= offset <= 1 ==> OwnPawnOn(ps, ShieldSquareIntended(95, BLACK, offset), BLACK)
  {
    StartLayoutRows();
    forall offset | -1 <= offset <= 1
      ensures OwnPawnOn(ps, ShieldSquareIntended(95, BLACK, offset), BLACK)
    {
      assert ShieldSquareIntended(95, BLACK, offset) == 85 + offset;
      OwnPawnAt(ps, 85 + offset, 12 + offset, BLACK);
    }
  }

  // ---------------------------------------------------------------------
  // _evaluate_pawn_structure

  /** One entry of the pawns_per_file dict.  The source keys it by the text
      f"{file}-{color}"; that text determines file and colour and is
      determined by them (KeyTextInjective), so the dict is keyed here by
      the pair itself and the text is kept for the colour test. */
  datatype Bucket = Bucket(file: FileDigit, colour: int, count: nat)

  /** A file number as the dict keys hold it: pos % 10 of a square. */
  type FileDigit = d: int | 0 <= d <= 9

  function KeyText(file: FileDigit, colour: int): string
  {
    [Notation.DIGITS[file]] + "-" + Notation.IntString(colour)
  }

  predicate EndsWithOne(s: string)
  {
    |s| > 0 && s[|s| - 1] == '1'
  }

  /** pawns_per_file[key] = pawns_per_file.get(key, 0) + 1: a known key
      counts up in place, a new key is appended (dicts keep insertion
      order). */
  function Bump(bs: seq<Bucket>, file: FileDigit, colour: int): (r: seq<Bucket>)
    ensures |r| == |bs| || |r| == |bs| + 1
    decreases |bs|
  {
    if |bs| == 0 then [Bucket(file, colour, 1)]
    else if bs[0].file == file && bs[0].colour == colour then [bs[0].(count := bs[0].count + 1)] + bs[1..]
    else [bs[0]] + Bump(bs[1..], file, colour)
  }

  /** The dict after the first loop: one bucket per (file, colour) of the
      live pawns, with the file taken as position % 10. */
  function Buckets(ps: seq<MPiece>): seq<Bucket>
    decreases |ps|
  {
    if |ps| == 0 then []
    else
      var bs := Buckets(ps[..|ps| - 1]);
      var p := ps[|ps| - 1];
      if !p.captured && p.kind == PAWN then Bump(bs, p.pos % 10, p.colour) else bs
  }

  /** The number of live pawns of the colour whose position % 10 is the
      file. */
  function PawnCount(ps: seq<MPiece>, file: int, colour: int): nat
    decreases |ps|
  {
    if |ps| == 0 then 0
    else
      var p := ps[|ps| - 1];
      PawnCount(ps[..|ps| - 1], file, colour)
        + (if !p.captured && p.kind == PAWN && p.pos % 10 == file && p.colour == colour then 1 else 0)
  }

  /** pawns_per_file.get((file, colour), 0). */
  function CountOf(bs: seq<Bucket>, file: int, colour: int): nat
    decreases |bs|
  {
    if |bs| == 0 then 0
    else if bs[0].file == file && bs[0].colour == colour then bs[0].count
    else CountOf(bs[1..], file, colour)
  }

  predicate HasKey(bs: seq<Bucket>, file: int, colour: int)
  {
    exists j :: 0 <= j < |bs| && bs[j].file == file && bs[j].colour == colour
  }

  /** No key occurs twice. */
  predicate KeysDistinct(bs: seq<Bucket>)
  {
    forall i, j :: 0 <= i < j < |bs| ==> bs[i].file != bs[j].file || bs[i].colour != bs[j].colour
  }

  lemma {:induction false} BumpKeys(bs: seq<Bucket>, file: FileDigit, colour: int, f: int, c: int)
    ensures HasKey(Bump(bs, file, colour), f, c) <==> HasKey(bs, f, c) || (f == file && c == colour)
    decreases |bs|
  {
    var r := Bump(bs, file, colour);
    if |bs| > 0 {
      assert r[0].file == bs[0].file && r[0].colour == bs[0].colour;
      if bs[0].file == file && bs[0].colour == colour {
        assert r[1..] == bs[1..];
      } else {
        BumpKeys(bs[1..], file, colour, f, c);
        assert r[1..] == Bump(bs[1..], file, colour);
      }
      HasKeyTail(bs, f, c);
      HasKeyTail(r, f, c);
    } else {
      assert r[0] == Bucket(file, colour, 1);
    }
  }

  lemma HasKeyTail(bs: seq<Bucket>, f: int, c: int)
    requires |bs| > 0
    ensures HasKey(bs, f, c) <==> (bs[0].file == f && bs[0].colour == c) || HasKey(bs[1..], f, c)
  {
    if HasKey(bs, f, c) {
      var j :| 0 <= j < |bs| && bs[j].file == f && bs[j].colour == c;
      if j > 0 {
        assert bs[1..][j - 1] == bs[j];
      }
    }
    if HasKey(bs[1..], f, c) {
      var j :| 0 <= j < |bs[1..]| && bs[1..][j].file == f && bs[1..][j].colour == c;
      assert bs[j + 1] == bs[1..][j];
    }
  }

  /** One increment of the dict: its key counts one more, every other key
      keeps its count, and keys stay distinct. */
  lemma {:induction false} BumpCounts(bs: seq<Bucket>, file: FileDigit, colour: int, f: int, c: int)
    requires KeysDistinct(bs)
    ensures KeysDistinct(Bump(bs, file, colour))
    ensures CountOf(Bump(bs, file, colour), f, c) == CountOf(bs, f, c) + (if f == file && c == colour then 1 else 0)
    decreases |bs|
  {
    if |bs| > 0 {
      var r := Bump(bs, file, colour);
      assert KeysDistinct(bs[1..]);
      BumpCounts(bs[1..], file, colour, f, c);
      if !(bs[0].file == file && bs[0].colour == colour) {
        forall j | 0 <= j < |r| - 1
          ensures r[0].file != r[1..][j].file || r[0].colour != r[1..][j].colour
        {
          BumpKeys(bs[1..], file, colour, r[1..][j].file, r[1..][j].colour);
          assert HasKey(r[1..], r[1..][j].file, r[1..][j].colour);
          if HasKey(bs[1..], r[1..][j].file, r[1..][j].colour) {
            var i :| 0 <= i < |bs[1..]| && bs[1..][i].file == r[1..][j].file && bs[1..][i].colour == r[1..][j].colour;
            assert bs[1..][i] == bs[i + 1];
          }
        }
      }
    }
  }

  /** The dict holds, for every (file, colour), the number of live pawns
      of that colour on that file. */
  lemma {:induction false} BucketsCountPawns(ps: seq<MPiece>, file: int, colour: int)
    ensures KeysDistinct(Buckets(ps))
    ensures CountOf(Buckets(ps), file, colour) == PawnCount(ps, file, colour)
    decreases |ps|
  {
    if |ps| > 0 {
      var front := ps[..|ps| - 1];
      BucketsCountPawns(front, file, colour);
      var p := ps[|ps| - 1];
      if !p.captured && p.kind == PAWN {
        BumpCounts(Buckets(front), p.pos % 10, p.colour, file, colour);
      }
    }
  }

  function BucketsTotal(bs: seq<Bucket>, term: Bucket -> int): int
  {
    if |bs| == 0 then 0 else BucketsTotal(bs[..|bs| - 1], term) + term(bs[|bs| - 1])
  }

  /** The second loop as written: a bucket with n > 1 pawns gives
      -20 * (n - 1), added when the key ends in "1" and subtracted
      otherwise. */
  function BucketScoreAsWritten(b: Bucket): int
  {
    if b.count > 1 then
      (if EndsWithOne(KeyText(b.file, b.colour)) then -20 * (b.count - 1) else 20 * (b.count - 1))
    else 0
  }

  function PawnStructureAsWritten(ps: seq<MPiece>): int
  {
    BucketsTotal(Buckets(ps), BucketScoreAsWritten)
  }

  /** The evident intent: the penalty lowers the score for White's doubled
      pawns and raises it for Black's. */
  function BucketScore(b: Bucket): int
  {
    if b.count > 1 then (if b.colour == WHITE then -20 * (b.count - 1) else 20 * (b.count - 1))
    else 0
  }

  function PawnStructure(ps: seq<MPiece>): int
  {
    BucketsTotal(Buckets(ps), BucketScore)
  }

  lemma {:induction false} NatStringLast(n: nat)
    ensures Notation.NatString(n)[|Notation.NatString(n)| - 1] == Notation.DIGITS[n % 10]
    decreases n
  {
  }

  lemma {:induction false} NatStringInjective(n: nat, m: nat)
    requires Notation.NatString(n) == Notation.NatString(m)
    ensures n == m
    decreases n
  {
    var s := Notation.NatString(n);
    if n >= 10 && m >= 10 {
      assert s[..|s| - 1] == Notation.NatString(n / 10);
      assert Notation.NatString(m)[..|s| - 1] == Notation.NatString(m / 10);
      NatStringInjective(n / 10, m / 10);
      assert Notation.DIGITS[n % 10] == s[|s| - 1] == Notation.DIGITS[m % 10];
    }
  }

  lemma IntStringSign(c: int)
    ensures |Notation.IntString(c)| > 0 && (Notation.IntString(c)[0] == '-' <==> c < 0)
  {
    var t := Notation.NatString(Abs(c));
    assert Notation.IsDigit(t[0]);
  }

  lemma IntStringInjective(c1: int, c2: int)
    requires Notation.IntString(c1) == Notation.IntString(c2)
    ensures c1 == c2
  {
    var t1, t2 := Notation.IntString(c1), Notation.IntString(c2);
    IntStringSign(c1);
    IntStringSign(c2);
    if c1 < 0 && c2 < 0 {
      assert t1[1..] == Notation.NatString(-c1) && t2[1..] == Notation.NatString(-c2);
      NatStringInjective(-c1, -c2);
    } else if c1 >= 0 && c2 >= 0 {
      NatStringInjective(c1, c2);
    }
  }

  lemma DigitsDistinct(f1: int, f2: int)
    requires 0 <= f1 <= 9 && 0 <= f2 <= 9
    requires Notation.DIGITS[f1] == Notation.DIGITS[f2]
    ensures f1 == f2
  {
    assert Notation.DIGITS[f1] as int - '0' as int == f1;
    assert Notation.DIGITS[f2] as int - '0' as int == f2;
  }

  /** f"{file}-{color}" names exactly one (file, colour) pair. */
  lemma KeyTextInjective(f1: int, c1: int, f2: int, c2: int)
    requires 0 <= f1 <= 9 && 0 <= f2 <= 9
    requires KeyText(f1, c1) == KeyText(f2, c2)
    ensures f1 == f2 && c1 == c2
  {
    var k1, k2 := KeyText(f1, c1), KeyText(f2, c2);
    assert k1[0] == Notation.DIGITS[f1] && k2[0] == Notation.DIGITS[f2];
    DigitsDistinct(f1, f2);
    assert k1[2..] == Notation.IntString(c1) && k2[2..] == Notation.IntString(c2);
    IntStringInjective(c1, c2);
  }

  /** key.endswith("1") holds exactly when the colour's last decimal digit
      is 1: for both colours 1 and -1. */
  lemma KeyEndsWithOne(file: FileDigit, colour: int)
    ensures EndsWithOne(KeyText(file, colour)) <==> Abs(colour) % 10 == 1
  {
    var n := Abs(colour);
    NatStringLast(n);
    var t := Notation.NatString(n);
    assert KeyText(file, colour)[|KeyText(file, colour)| - 1] == t[|t| - 1];
    assert Notation.DIGITS[n % 10] == '1' <==> n % 10 == 1;
  }

  predicate BucketsOk(bs: seq<Bucket>)
  {
    forall k :: 0 <= k < |bs| ==> IsColour(bs[k].colour)
  }

  lemma {:induction false} BumpOk(bs: seq<Bucket>, file: FileDigit, colour: int)
    requires BucketsOk(bs) && IsColour(colour)
    ensures BucketsOk(Bump(bs, file, colour))
    decreases |bs|
  {
    if |bs| > 0 && !(bs[0].file == file && bs[0].colour == colour) {
      BumpOk(bs[1..], file, colour);
    }
  }

  lemma {:induction false} BucketsAreOk(ps: seq<MPiece>)
    requires ColoursOk(ps)
    ensures BucketsOk(Buckets(ps))
    decreases |ps|
  {
    if |ps| > 0 {
      BucketsAreOk(ps[..|ps| - 1]);
      var p := ps[|ps| - 1];
      if !p.captured && p.kind == PAWN {
        BumpOk(Buckets(ps[..|ps| - 1]), p.pos % 10, p.colour);
      }
    }
  }

  /** The penalty every doubled bucket gives as written, whatever its
      colour. */
  function FlatPenalty(b: Bucket): int
  {
    if b.count > 1 then -20 * (b.count - 1) else 0
  }

  lemma {:induction false} AsWrittenIsFlat(bs: seq<Bucket>)
    requires BucketsOk(bs)
    ensures BucketsTotal(bs, BucketScoreAsWritten) == BucketsTotal(bs, FlatPenalty)
    ensures BucketsTotal(bs, FlatPenalty) <= 0
    decreases |bs|
  {
    if |bs| > 0 {
      AsWrittenIsFlat(bs[..|bs| - 1]);
      var b := bs[|bs| - 1];
      KeyEndsWithOne(b.file, b.colour);
    }
  }

  /** As written, every doubled pawn costs 20 whichever side it belongs
      to, so the term never favours White. */
  lemma PawnStructureAsWrittenNonPositive(ps: seq<MPiece>)
    requires ColoursOk(ps)
    ensures PawnStructureAsWritten(ps) <= 0
  {
    BucketsAreOk(ps);
    AsWrittenIsFlat(Buckets(ps));
  }

  function SwapBuckets(bs: seq<Bucket>): (r: seq<Bucket>)
    ensures |r| == |bs| && forall k :: 0 <= k < |bs| ==> r[k] == bs[k].(colour := -bs[k].colour)
  {
    seq(|bs|, k requires 0 <= k < |bs| => bs[k].(colour := -bs[k].colour))
  }

  lemma SwapBucketsCons(b: Bucket, t: seq<Bucket>)
    ensures SwapBuckets([b] + t) == [b.(colour := -b.colour)] + SwapBuckets(t)
  {
  }

  lemma {:induction false} BumpSwap(bs: seq<Bucket>, file: FileDigit, colour: int)
    ensures Bump(SwapBuckets(bs), file, -colour) == SwapBuckets(Bump(bs, file, colour))
    decreases |bs|
  {
    if |bs| > 0 {
      var b := bs[0];
      assert bs == [b] + bs[1..];
      SwapBucketsCons(b, bs[1..]);
      if b.file == file && b.colour == colour {
        SwapBucketsCons(b.(count := b.count + 1), bs[1..]);
      } else {
        BumpSwap(bs[1..], file, colour);
        SwapBucketsCons(b, Bump(bs[1..], file, colour));
      }
    }
  }

  lemma {:induction false} BucketsMirror(ps: seq<MPiece>)
    ensures Buckets(MirrorRoster(ps)) == SwapBuckets(Buckets(ps))
    decreases |ps|
  {
    if |ps| > 0 {
      var front := ps[..|ps| - 1];
      assert MirrorRoster(ps)[..|ps| - 1] == MirrorRoster(front);
      BucketsMirror(front);
      var p := ps[|ps| - 1];
      if !p.captured && p.kind == PAWN {
        BumpSwap(Buckets(front), p.pos % 10, p.colour);
      }
    }
  }

  lemma {:induction false} SwapBucketsTotals(bs: seq<Bucket>)
    requires BucketsOk(bs)
    ensures BucketsOk(SwapBuckets(bs))
    ensures BucketsTotal(SwapBuckets(bs), BucketScore) == -BucketsTotal(bs, BucketScore)
    ensures BucketsTotal(SwapBuckets(bs), FlatPenalty) == BucketsTotal(bs, FlatPenalty)
    decreases |bs|
  {
    if |bs| > 0 {
      assert SwapBuckets(bs)[..|bs| - 1] == SwapBuckets(bs[..|bs| - 1]);
      SwapBucketsTotals(bs[..|bs| - 1]);
    }
  }

  /** The intended term changes sign in the mirrored position. */
  lemma PawnStructureMirror(ps: seq<MPiece>)
    requires ColoursOk(ps)
    ensures PawnStructure(MirrorRoster(ps)) == -PawnStructure(ps)
  {
    BucketsMirror(ps);
    BucketsAreOk(ps);
    SwapBucketsTotals(Buckets(ps));
  }

  /** As written, the term is the same in the mirrored position instead of
      changing sign. */
  lemma PawnStructureAsWrittenMirror(ps: seq<MPiece>)
    requires ColoursOk(ps)
    ensures PawnStructureAsWritten(MirrorRoster(ps)) == PawnStructureAsWritten(ps)
  {
    BucketsMirror(ps);
    BucketsAreOk(ps);
    SwapBucketsTotals(Buckets(ps));
    AsWrittenIsFlat(Buckets(ps));
    AsWrittenIsFlat(SwapBuckets(Buckets(ps)));
  }

  /** Two black pawns on one file: as written the score drops by 20, as
      intended it rises by 20. */
  lemma BlackDoubledPawnsMisjudged()
    ensures PawnStructureAsWritten([MPiece(1, PAWN, BLACK, 73, false, false), MPiece(2, PAWN, BLACK, 63, false, false)]) == -20
    ensures PawnStructure([MPiece(1, PAWN, BLACK, 73, false, false), MPiece(2, PAWN, BLACK, 63, false, false)]) == 20
  {
    var ps := [MPiece(1, PAWN, BLACK, 73, false, false), MPiece(2, PAWN, BLACK, 63, false, false)];
    assert ps[..1] == [ps[0]] && [ps[0]][..0] == [];
    assert Buckets(ps[..1]) == [Bucket(3, BLACK, 1)];
    assert Buckets(ps) == Bump([Bucket(3, BLACK, 1)], 3, BLACK);
    assert Buckets(ps) == [Bucket(3, BLACK, 2)];
    assert [Bucket(3, BLACK, 2)][..0] == [];
    KeyEndsWithOne(3, BLACK);
    assert BucketScoreAsWritten(Bucket(3, BLACK, 2)) == -20;
    assert BucketScore(Bucket(3, BLACK, 2)) == 20;
    assert BucketsTotal([Bucket(3, BLACK, 2)], BucketScore) == 20;
    assert BucketsTotal([Bucket(3, BLACK, 2)], BucketScoreAsWritten) == -20;
    KeyEndsWithOne(3, BLACK);
  }

  // ---------------------------------------------------------------------
  // _get_mobility_weight

  /** The per-kind weight of a move in _evaluate_mobility, 1 for any kind
      outside the table. */
  function MobilityWeight(kind: int): (w: int)
    ensures 1 <= w <= 3
    ensures w == 3 <==> kind == KNIGHT
    ensures w == 2 <==> kind == BISHOP || kind == ROOK
  {
    if kind == KNIGHT then 3 else if kind == BISHOP || kind == ROOK then 2 else 1
  }

  // ---------------------------------------------------------------------
  // The evaluator object

  /** PositionEvaluator: the engine it reads and the eval_counter it
      counts calls of evaluate_position with.  Its own _get_piece_at and
      _get_king are the engine's searches (the same loops). */
  class PositionEvaluator {
    const engine: Engine
    var evalCounter: int

    constructor (engine: Engine)
      ensures this.engine == engine && evalCounter == 0
    {
      this.engine := engine;
      evalCounter := 0;
    }

    /** evaluate_position: counts the call, then mate, stalemate or
      material. */
    method EvaluatePosition() returns (score: int)
      modifies this`evalCounter
      ensures evalCounter == old(evalCounter) + 1
      ensures score == PositionScore(engine.State())
    {
      evalCounter := evalCounter + 1;
      if engine.checkmate {
        var current := if engine.whiteTurn then WHITE else BLACK;
        var inCheck := engine.IsKingInCheck(current);
        if inCheck {
          score := if current == WHITE then -MATE_EVAL else MATE_EVAL;
          return;
        }
      }
      if engine.stalemate {
        return 0;
      }
      score := EvaluateMaterial();
    }

    method EvaluateMaterial() returns (material: int)
      ensures material == Material(engine.pieces)
    {
      var ps := engine.pieces;
      material := 0;
      for i := 0 to |ps|
        invariant material == Total(ps[..i], MaterialTerm)
      {
        assert ps[..i + 1][..i] == ps[..i];
        var piece := ps[i];
        if !piece.captured {
          var value := MaterialValue(piece.kind);
          if piece.colour == WHITE {
            material := material + value;
          } else {
            material := material - value;
          }
        }
      }
      assert ps[..|ps|] == ps;
    }

    method EvaluatePieceSquares() returns (positionScore: int)
      requires KindsKnown(engine.pieces)
      ensures positionScore == PieceSquares(engine.pieces)
    {
      var ps := engine.pieces;
      positionScore := 0;
      for i := 0 to |ps|
        invariant positionScore == Total(ps[..i], SquareTerm)
      {
        assert ps[..i + 1][..i] == ps[..i];
        var piece := ps[i];
        if !piece.captured {
          var row := TableRow(piece.colour, piece.pos);
          var col := TableCol(piece.pos);
          var posValue := PositionTable(piece.kind)[row][col];
          if piece.colour == WHITE {
            positionScore := positionScore + posValue;
          } else {
            positionScore := positionScore - posValue;
          }
        }
      }
      assert ps[..|ps|] == ps;
    }

    /** _count_pawn_shield over the file offsets -1, 0, 1. */
    method CountPawnShield(kingPos: int, colour: int) returns (pawnCount: nat)
      ensures pawnCount == PawnShield(engine.pieces, kingPos, colour)
    {
      var offsets := [-1, 0, 1];
      pawnCount := 0;
      for k := 0 to 3
        invariant pawnCount == (if k > 0 then ShieldPoint(engine.pieces, kingPos, colour, -1) else 0)
                               + (if k > 1 then ShieldPoint(engine.pieces, kingPos, colour, 0) else 0)
                               + (if k > 2 then ShieldPoint(engine.pieces, kingPos, colour, 1) else 0)
      {
        var point := ShieldPawn(kingPos, colour, offsets[k]);
        pawnCount := pawnCount + point;
      }
    }

    /** One pass of the shield loop: 1 when the file is on the board and
      the first live entry on the inspected square is an own pawn. */
    method ShieldPawn(kingPos: int, colour: int, offset: int) returns (point: nat)
      ensures point == ShieldPoint(engine.pieces, kingPos, colour, offset)
    {
      point := 0;
      var checkFile := Col(kingPos) + offset;
      if 1 <= checkFile <= 8 {
        var pawnRow := if colour == WHITE then Row(kingPos) - 1 else Row(kingPos) + 1;
        var pawnPos := pawnRow * 10 + checkFile;
        var pawn := engine.GetPieceAt(pawnPos);
        if pawn.Some? && engine.pieces[pawn.value].kind == PAWN && engine.pieces[pawn.value].colour == colour {
          point := 1;
        }
      }
    }

    /** One king's safety penalty, 0 without a live king. */
    method KingPenalty(colour: int) returns (penalty: int)
      ensures penalty == KingTerm(engine.pieces, colour)
    {
      var king := engine.GetKing(colour);
      if king.None? {
        return 0;
      }
      var kingPos := engine.pieces[king.value].pos;
      penalty := if 3 <= Col(kingPos) <= 6 then -30 else 10;
      var pawnShield := CountPawnShield(kingPos, colour);
      var missing: int := 3 - pawnShield;
      penalty := penalty + missing * -10;
    }

    /** _evaluate_king_safety over the colours 1 and -1. */
    method EvaluateKingSafety() returns (safetyScore: int)
      ensures safetyScore == KingSafety(engine.pieces)
    {
      var colours := [WHITE, BLACK];
      safetyScore := 0;
      for k := 0 to 2
        invariant safetyScore == (if k > 0 then KingTerm(engine.pieces, WHITE) else 0)
                                 - (if k > 1 then KingTerm(engine.pieces, BLACK) else 0)
      {
        var colour := colours[k];
        var penalty := KingPenalty(colour);
        if colour == WHITE {
          safetyScore := safetyScore + penalty;
        } else {
          safetyScore := safetyScore - penalty;
        }
      }
    }

    /** _evaluate_pawn_structure as written: the dict of pawns per
      (file, colour), then the penalties with the endswith("1") test. */
    method EvaluatePawnStructure() returns (structureScore: int)
      ensures structureScore == PawnStructureAsWritten(engine.pieces)
    {
      var ps := engine.pieces;
      var pawnsPerFile: seq<Bucket> := [];
      for i := 0 to |ps|
        invariant pawnsPerFile == Buckets(ps[..i])
      {
        assert ps[..i + 1][..i] == ps[..i];
        var piece := ps[i];
        if !piece.captured && piece.kind == PAWN {
          pawnsPerFile := Bump(pawnsPerFile, piece.pos % 10, piece.colour);
        }
      }
      assert ps[..|ps|] == ps;
      structureScore := 0;
      for k := 0 to |pawnsPerFile|
        invariant structureScore == BucketsTotal(pawnsPerFile[..k], BucketScoreAsWritten)
      {
        assert pawnsPerFile[..k + 1][..k] == pawnsPerFile[..k];
        var b := pawnsPerFile[k];
        if b.count > 1 {
          var colour := if EndsWithOne(KeyText(b.file, b.colour)) then WHITE else BLACK;
          var doublePawnPenalty := -20 * (b.count - 1);
          if colour == WHITE {
            structureScore := structureScore + doublePawnPenalty;
          } else {
            structureScore := structureScore - doublePawnPenalty;
          }
        }
      }
      assert pawnsPerFile[..|pawnsPerFile|] == pawnsPerFile;
    }
  }
}
