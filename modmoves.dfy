/** The MoveGenerator of the modular engine
    (chessteg_modular/engine/move_generation.py) and the castling test of
    its ChessRules (chessteg_modular/engine/rules.py) as functions of the
    state: the piece generators, the attacked squares, the check query,
    the legality filter, the castling moves and generate_moves. */
module ModMoves {
  import opened Common
  import opened ModState

  /** DIRECTIONS in insertion order: N, S, E, W, NE, NW, SE, SW. */
  const DIRECTIONS: seq<int> := [10, -10, 1, -1, 11, 9, -9, -11]
  /** ['N', 'S', 'E', 'W'] */
  const ROOK_DIRECTIONS: seq<int> := [10, -10, 1, -1]
  /** ['NE', 'NW', 'SE', 'SW'] */
  const BISHOP_DIRECTIONS: seq<int> := [11, 9, -9, -11]
  const KNIGHT_MOVES: seq<int> := [21, 19, 12, 8, -8, -12, -19, -21]
  const PROMOTION_PIECES: seq<int> := [QUEEN, ROOK, BISHOP, KNIGHT]

  predicate NonZero(dirs: seq<int>)
  {
    forall k :: 0 <= k < |dirs| ==> dirs[k] != 0
  }

  /** DIRECTIONS['N'] * color. */
  function Forward(colour: int): int
  {
    10 * colour
  }

  function StartRow(colour: int): int
  {
    if colour == WHITE then 3 else 8
  }

  /** _is_promotion_rank (and is_promotion_rank of ChessRules): row 9 for
      White, row 2 for Black. */
  predicate IsPromotionRank(position: int, colour: int)
  {
    (colour == WHITE && position / 10 == 9) || (colour == BLACK && position / 10 == 2)
  }

  /** _create_move. */
  function CreateMove(piece: MPiece, to: int, capturePos: Option<int>, special: Special,
                      promotion: Option<int>): (m: MMove)
    ensures m.isCapture <==> capturePos.Some?
    ensures m.promotionType == promotion && m.promotionPiece == promotion
    ensures m.from == piece.pos && m.to == to && m.capturePos == capturePos && m.special == special
    ensures m.pieceId == piece.id && m.kind == piece.kind && m.colour == piece.colour && m.rook.None?
  {
    MMove(piece.id, piece.kind, piece.colour, piece.pos, to, capturePos, promotion, special,
          capturePos.Some?, promotion, None)
  }

  // ---------------------------------------------------------------------
  // Pawns

  /** The four promotion moves onto `to`, in the order QUEEN, ROOK, BISHOP, KNIGHT. */
  function Promotions(pawn: MPiece, to: int, capturePos: Option<int>): (ms: seq<MMove>)
    ensures |ms| == 4
    ensures forall k :: 0 <= k < 4 ==>
      ms[k].to == to && ms[k].capturePos == capturePos &&
      ms[k].promotionPiece == Some(PROMOTION_PIECES[k]) && ms[k].special == NoSpecial
  {
    [CreateMove(pawn, to, capturePos, NoSpecial, Some(QUEEN)),
     CreateMove(pawn, to, capturePos, NoSpecial, Some(ROOK)),
     CreateMove(pawn, to, capturePos, NoSpecial, Some(BISHOP)),
     CreateMove(pawn, to, capturePos, NoSpecial, Some(KNIGHT))]
  }

  /** The forward part of _generate_pawn_moves: the single step onto a
      square without a live piece (four promotions on the last rank), and
      from the start row the double step when that square is free too. */
  function PawnPushes(ps: seq<MPiece>, pawn: MPiece): seq<MMove>
  {
    var one := pawn.pos + Forward(pawn.colour);
    if PieceAt(ps, one).Some? then []
    else if IsPromotionRank(one, pawn.colour) then Promotions(pawn, one, None)
    else
      [CreateMove(pawn, one, None, NoSpecial, None)] +
      (if pawn.pos / 10 == StartRow(pawn.colour) && PieceAt(ps, pawn.pos + 2 * Forward(pawn.colour)).None?
       then [CreateMove(pawn, pawn.pos + 2 * Forward(pawn.colour), None, DoublePawnPush, None)]
       else [])
  }

  /** One diagonal of _generate_pawn_moves: a capture of an enemy piece
      (four promotions on the last rank), else en passant onto the target. */
  function PawnCapture(ps: seq<MPiece>, ep: Option<int>, pawn: MPiece, dir: int): seq<MMove>
  {
    var target := pawn.pos + dir;
    if !IsValidPosition(target) then []
    else
      var t := PieceAt(ps, target);
      if t.Some? && ps[t.value].colour != pawn.colour then
        if IsPromotionRank(target, pawn.colour) then Promotions(pawn, target, Some(target))
        else [CreateMove(pawn, target, Some(target), NoSpecial, None)]
      else if ep == Some(target) then
        [CreateMove(pawn, target, Some(target - Forward(pawn.colour)), EnPassantCapture, None)]
      else []
  }

  /** _generate_pawn_moves: pushes, then the diagonals forward+E and forward+W. */
  function PawnMoves(ps: seq<MPiece>, ep: Option<int>, pawn: MPiece): seq<MMove>
  {
    PawnPushes(ps, pawn) +
    PawnCapture(ps, ep, pawn, Forward(pawn.colour) + 1) +
    PawnCapture(ps, ep, pawn, Forward(pawn.colour) - 1)
  }

  // ---------------------------------------------------------------------
  // Knights, kings and sliding pieces

  /** One target of _generate_knight_moves / _generate_king_moves. */
  function Jump(ps: seq<MPiece>, piece: MPiece, target: int): seq<MMove>
  {
    if !IsValidPosition(target) then []
    else
      var t := PieceAt(ps, target);
      if t.None? then [CreateMove(piece, target, None, NoSpecial, None)]
      else if ps[t.value].colour != piece.colour then [CreateMove(piece, target, Some(target), NoSpecial, None)]
      else []
  }

  function Jumps(ps: seq<MPiece>, piece: MPiece, offsets: seq<int>): seq<MMove>
  {
    if |offsets| == 0 then [] else Jump(ps, piece, piece.pos + offsets[0]) + Jumps(ps, piece, offsets[1..])
  }

  /** The while loop of _generate_sliding_moves along one direction from `field`. */
  function SlideWalk(ps: seq<MPiece>, piece: MPiece, field: int, d: int): seq<MMove>
    requires d != 0
    decreases if d > 0 then 100 - field else field
  {
    if !IsValidPosition(field) then []
    else
      var t := PieceAt(ps, field);
      if t.None? then [CreateMove(piece, field, None, NoSpecial, None)] + SlideWalk(ps, piece, field + d, d)
      else if ps[t.value].colour != piece.colour then [CreateMove(piece, field, Some(field), NoSpecial, None)]
      else []
  }

  function Slides(ps: seq<MPiece>, piece: MPiece, dirs: seq<int>): seq<MMove>
    requires NonZero(dirs)
  {
    if |dirs| == 0 then []
    else SlideWalk(ps, piece, piece.pos + dirs[0], dirs[0]) + Slides(ps, piece, dirs[1..])
  }

  /** The k-th square of the ray from `from` in direction d. */
  function RaySquare(from: int, d: int, k: nat): int
  {
    from + k * d
  }

  /** Sliding moves: every square of the walk is playable; all but the last
      are free of live pieces, and the last one is free or holds an enemy,
      which is then captured on its own square. */
  lemma {:induction false} SlideWalkShape(ps: seq<MPiece>, piece: MPiece, field: int, d: int)
    requires d != 0
    ensures forall k :: 0 <= k < |SlideWalk(ps, piece, field, d)| ==>
      var m := SlideWalk(ps, piece, field, d)[k];
      m.to == field + k * d && IsValidPosition(m.to) && m.from == piece.pos &&
      (m.capturePos.None? ==> PieceAt(ps, m.to).None?) &&
      (m.capturePos.Some? ==>
         m.capturePos == Some(m.to) && k == |SlideWalk(ps, piece, field, d)| - 1 &&
         PieceAt(ps, m.to).Some? && ps[PieceAt(ps, m.to).value].colour != piece.colour)
    ensures forall k :: 0 <= k < |SlideWalk(ps, piece, field, d)| - 1 ==>
      PieceAt(ps, SlideWalk(ps, piece, field, d)[k].to).None?
    decreases if d > 0 then 100 - field else field
  {
    if IsValidPosition(field) && PieceAt(ps, field).None? {
      SlideWalkShape(ps, piece, field + d, d);
      var rest := SlideWalk(ps, piece, field + d, d);
      assert SlideWalk(ps, piece, field, d) == [CreateMove(piece, field, None, NoSpecial, None)] + rest;
      forall k | 1 <= k < 1 + |rest|
        ensures SlideWalk(ps, piece, field, d)[k].to == field + k * d
      {
        assert rest[k - 1].to == field + d + (k - 1) * d;
      }
    }
  }

  /** The walk stops only on the first live piece: if it ends with a quiet
      move, the next square is off the board or holds an own piece. */
  lemma {:induction false} SlideWalkStops(ps: seq<MPiece>, piece: MPiece, field: int, d: int)
    requires d != 0
    ensures var w := SlideWalk(ps, piece, field, d);
      var next := field + |w| * d;
      (|w| == 0 || w[|w| - 1].capturePos.None?) ==>
        !IsValidPosition(next) || (PieceAt(ps, next).Some? && ps[PieceAt(ps, next).value].colour == piece.colour)
    decreases if d > 0 then 100 - field else field
  {
    if IsValidPosition(field) && PieceAt(ps, field).None? {
      SlideWalkStops(ps, piece, field + d, d);
      var rest := SlideWalk(ps, piece, field + d, d);
      assert field + (1 + |rest|) * d == field + d + |rest| * d;
    }
  }

  /** generate_piece_moves: dispatch on the piece type; others have no moves. */
  function PieceMoves(ps: seq<MPiece>, ep: Option<int>, piece: MPiece): seq<MMove>
  {
    if piece.kind == PAWN then PawnMoves(ps, ep, piece)
    else if piece.kind == ROOK then Slides(ps, piece, ROOK_DIRECTIONS)
    else if piece.kind == BISHOP then Slides(ps, piece, BISHOP_DIRECTIONS)
    else if piece.kind == QUEEN then Slides(ps, piece, DIRECTIONS)
    else if piece.kind == KNIGHT then Jumps(ps, piece, KNIGHT_MOVES)
    else if piece.kind == KING then Jumps(ps, piece, DIRECTIONS)
    else []
  }

  // ---------------------------------------------------------------------
  // Attacks and check

  /** The playable squares among from + offsets, in order. */
  function ValidTargets(from: int, offsets: seq<int>): (ts: seq<int>)
    ensures forall t :: t in ts <==> IsValidPosition(t) && exists k :: 0 <= k < |offsets| && t == from + offsets[k]
  {
    if |offsets| == 0 then []
    else
      var rest := ValidTargets(from, offsets[1..]);
      assert forall k :: 1 <= k < |offsets| ==> offsets[k] == offsets[1..][k - 1];
      (if IsValidPosition(from + offsets[0]) then [from + offsets[0]] else []) + rest
  }

  /** The attack ray of get_attacked_squares: every playable square up to
      and including the first one holding a live piece of either colour. */
  function AttackRay(ps: seq<MPiece>, field: int, d: int): seq<int>
    requires d != 0
    decreases if d > 0 then 100 - field else field
  {
    if !IsValidPosition(field) then []
    else [field] + (if PieceAt(ps, field).Some? then [] else AttackRay(ps, field + d, d))
  }

  function AttackRays(ps: seq<MPiece>, from: int, dirs: seq<int>): seq<int>
    requires NonZero(dirs)
  {
    if |dirs| == 0 then [] else AttackRay(ps, from + dirs[0], dirs[0]) + AttackRays(ps, from, dirs[1..])
  }

  /** get_attacked_squares. */
  function AttackedSquares(ps: seq<MPiece>, piece: MPiece): seq<int>
  {
    if piece.kind == PAWN then ValidTargets(piece.pos, [Forward(piece.colour) + 1, Forward(piece.colour) - 1])
    else if piece.kind == KNIGHT then ValidTargets(piece.pos, KNIGHT_MOVES)
    else if piece.kind == KING then ValidTargets(piece.pos, DIRECTIONS)
    else if piece.kind == ROOK then AttackRays(ps, piece.pos, ROOK_DIRECTIONS)
    else if piece.kind == BISHOP then AttackRays(ps, piece.pos, BISHOP_DIRECTIONS)
    else if piece.kind == QUEEN then AttackRays(ps, piece.pos, DIRECTIONS)
    else []
  }

  /** A pawn attacks both forward diagonals whatever stands there. */
  lemma PawnAttacksDiagonals(ps: seq<MPiece>, pawn: MPiece, t: int)
    requires pawn.kind == PAWN
    ensures t in AttackedSquares(ps, pawn) <==>
      IsValidPosition(t) && (t == pawn.pos + Forward(pawn.colour) + 1 || t == pawn.pos + Forward(pawn.colour) - 1)
  {
    var offs := [Forward(pawn.colour) + 1, Forward(pawn.colour) - 1];
    if IsValidPosition(t) && (t == pawn.pos + offs[0] || t == pawn.pos + offs[1]) {
      assert t in ValidTargets(pawn.pos, offs);
    }
  }

  /** The ray walks the playable squares field, field + d, field + 2d, ... */
  lemma {:induction false} AttackRaySquares(ps: seq<MPiece>, field: int, d: int)
    requires d != 0
    ensures forall k :: 0 <= k < |AttackRay(ps, field, d)| ==>
      AttackRay(ps, field, d)[k] == field + k * d && IsValidPosition(field + k * d)
    decreases if d > 0 then 100 - field else field
  {
    if IsValidPosition(field) && PieceAt(ps, field).None? {
      AttackRaySquares(ps, field + d, d);
      var rest := AttackRay(ps, field + d, d);
      assert AttackRay(ps, field, d) == [field] + rest;
      forall k | 1 <= k < 1 + |rest|
        ensures AttackRay(ps, field, d)[k] == field + k * d
      {
        assert rest[k - 1] == field + d + (k - 1) * d;
      }
    }
  }

  /** A ray passes only empty squares before its last one ... */
  lemma {:induction false} AttackRayBlocked(ps: seq<MPiece>, field: int, d: int)
    requires d != 0
    ensures forall k :: 0 <= k < |AttackRay(ps, field, d)| - 1 ==> PieceAt(ps, field + k * d).None?
    decreases if d > 0 then 100 - field else field
  {
    if IsValidPosition(field) && PieceAt(ps, field).None? {
      AttackRayBlocked(ps, field + d, d);
      var rest := AttackRay(ps, field + d, d);
      assert AttackRay(ps, field, d) == [field] + rest;
      forall k | 1 <= k < |rest|
        ensures PieceAt(ps, field + k * d).None?
      {
        assert field + d + (k - 1) * d == field + k * d;
      }
    }
  }

  /** ... and stops on its first blocker, whatever its colour, or at the
      edge of the board. */
  lemma {:induction false} AttackRayEnds(ps: seq<MPiece>, field: int, d: int)
    requires d != 0
    ensures var n := |AttackRay(ps, field, d)|;
      (n > 0 && PieceAt(ps, field + (n - 1) * d).Some?) || !IsValidPosition(field + n * d)
    decreases if d > 0 then 100 - field else field
  {
    if IsValidPosition(field) && PieceAt(ps, field).None? {
      AttackRayEnds(ps, field + d, d);
      var n := |AttackRay(ps, field + d, d)|;
      assert |AttackRay(ps, field, d)| == n + 1;
      assert field + d + n * d == field + (n + 1) * d;
      if n > 0 {
        assert field + d + (n - 1) * d == field + n * d;
      }
    }
  }

  /** is_square_attacked: some live piece of the attacking colour has the
      square among its attacked squares. */
  predicate SquareAttacked(ps: seq<MPiece>, position: int, attacker: int)
  {
    exists i :: 0 <= i < |ps| && !ps[i].captured && ps[i].colour == attacker && position in AttackedSquares(ps, ps[i])
  }

  function Opponent(colour: int): int
  {
    if colour == WHITE then BLACK else WHITE
  }

  /** is_king_in_check: false without a live king of the colour, otherwise
      whether the opponent attacks its square. */
  predicate KingInCheck(ps: seq<MPiece>, colour: int)
  {
    match King(ps, colour)
    case None => false
    case Some(k) => SquareAttacked(ps, ps[k].pos, Opponent(colour))
  }

  // ---------------------------------------------------------------------
  // _apply_move_internal and is_move_legal

  /** The roster after _apply_move_internal: the victim on capture_pos is
      flagged, the mover goes to to_pos and takes the promotion type. */
  function ApplyToPieces(ps: seq<MPiece>, m: MMove): (r: seq<MPiece>)
    ensures |r| == |ps|
    ensures forall i :: 0 <= i < |ps| ==> r[i].id == ps[i].id && r[i].colour == ps[i].colour
  {
    match PieceById(ps, m.pieceId)
    case None => ps
    case Some(i) =>
      var ps1 := if Truthy(m.capturePos) && PieceAt(ps, m.capturePos.value).Some?
                 then ps[PieceAt(ps, m.capturePos.value).value := ps[PieceAt(ps, m.capturePos.value).value].(captured := true)]
                 else ps;
      var ps2 := ps1[i := ps1[i].(pos := m.to)];
      if Truthy(m.promotionPiece) then ps2[i := ps2[i].(kind := m.promotionPiece.value)] else ps2
  }

  /** The board after _apply_move_internal: the mover's square and the
      victim's square are emptied and to_pos gets the mover's value from
      before the promotion. */
  function ApplyToBoard(b: seq<int>, ps: seq<MPiece>, m: MMove): (r: seq<int>)
    requires |b| == BOARD_SIZE && (forall i :: 0 <= i < |ps| ==> InRange(ps[i].pos)) && MoveOk(m)
    ensures |r| == BOARD_SIZE
  {
    var found := PieceById(ps, m.pieceId);
    if found.None? then b
    else
      var i := found.value;
      assert InRange(ps[i].pos);
      var b1 := b[ps[i].pos := EMPTY];
      var b2 := if Truthy(m.capturePos) && PieceAt(ps, m.capturePos.value).Some?
                then b1[m.capturePos.value := EMPTY] else b1;
      var captor := if Truthy(m.capturePos) && PieceAt(ps, m.capturePos.value) == Some(i)
                    then ps[i].(captured := true) else ps[i];
      b2[m.to := Value(captor)]
  }

  /** _apply_move_internal on the whole state. */
  function ApplyMoveInternal(s: MState, m: MMove): (r: MState)
    requires |s.board| == BOARD_SIZE && (forall i :: 0 <= i < |s.pieces| ==> InRange(s.pieces[i].pos)) && MoveOk(m)
    ensures r == s.(board := r.board, pieces := r.pieces)
  {
    s.(board := ApplyToBoard(s.board, s.pieces, m), pieces := ApplyToPieces(s.pieces, m))
  }

  /** What _apply_move_internal promises: the side to move stays, the
      mover stands on to_pos with the promoted type, the live piece on a
      truthy capture_pos is flagged captured, and to_pos shows the mover. */
  lemma ApplyMoveInternalEffects(s: MState, m: MMove)
    requires |s.board| == BOARD_SIZE && (forall i :: 0 <= i < |s.pieces| ==> InRange(s.pieces[i].pos)) && MoveOk(m)
    requires PieceById(s.pieces, m.pieceId).Some?
    ensures var i := PieceById(s.pieces, m.pieceId).value; var r := ApplyMoveInternal(s, m);
      r.whiteTurn == s.whiteTurn &&
      r.pieces[i].pos == m.to &&
      r.pieces[i].kind == (if Truthy(m.promotionPiece) then m.promotionPiece.value else s.pieces[i].kind) &&
      r.board[m.to] == s.pieces[i].kind * s.pieces[i].colour &&
      (Truthy(m.capturePos) && PieceAt(s.pieces, m.capturePos.value).Some? ==>
         r.pieces[PieceAt(s.pieces, m.capturePos.value).value].captured)
  {
  }

  /** is_move_legal: the mover (looked up by id) exists and its king is not
      in check after _apply_move_internal.  Only the roster matters: the
      check query never reads the board. */
  predicate MoveLegal(ps: seq<MPiece>, m: MMove)
  {
    match PieceById(ps, m.pieceId)
    case None => false
    case Some(i) => !KingInCheck(ApplyToPieces(ps, m), ps[i].colour)
  }

  // ---------------------------------------------------------------------
  // Castling (ChessRules)

  datatype Side = Kingside | Queenside

  /** _get_castling_positions: king from, king to, rook from, rook to. */
  function CastlingPositions(colour: int, side: Side): (int, int, int, int)
  {
    if colour == WHITE then (if side == Kingside then (25, 27, 28, 26) else (25, 23, 21, 24))
    else (if side == Kingside then (95, 97, 98, 96) else (95, 93, 91, 94))
  }

  /** The king moves two squares towards the rook, the rook lands on the
      square the king crosses, and Black's squares are White's plus 70. */
  lemma CastlingGeometry(colour: int, side: Side)
    ensures var (kf, kt, rf, rt) := CastlingPositions(colour, side);
      kt == (if side == Kingside then kf + 2 else kf - 2) &&
      rt == (if side == Kingside then kf + 1 else kf - 1) &&
      IsValidPosition(kf) && IsValidPosition(kt) && IsValidPosition(rf) && IsValidPosition(rt)
    ensures colour != WHITE ==> var (kf, kt, rf, rt) := CastlingPositions(colour, side);
      var (wkf, wkt, wrf, wrt) := CastlingPositions(WHITE, side);
      kf == wkf + 70 && kt == wkt + 70 && rf == wrf + 70 && rt == wrt + 70
  {
  }

  /** _has_castling_right. */
  function HasCastlingRight(r: Rights, colour: int, side: Side): bool
  {
    if colour == WHITE then (if side == Kingside then r.whiteKingside else r.whiteQueenside)
    else (if side == Kingside then r.blackKingside else r.blackQueenside)
  }

  /** _check_basic_castling_requirements: the right, and the live piece on
      the king's and the rook's start squares are the own king and rook. */
  predicate BasicCastling(s: MState, colour: int, side: Side)
  {
    var (kf, _, rf, _) := CastlingPositions(colour, side);
    var king := PieceAt(s.pieces, kf);
    var rook := PieceAt(s.pieces, rf);
    HasCastlingRight(s.castlingRights, colour, side) &&
    king.Some? && s.pieces[king.value].kind == KING && s.pieces[king.value].colour == colour &&
    rook.Some? && s.pieces[rook.value].kind == ROOK && s.pieces[rook.value].colour == colour
  }

  /** The squares _check_castling_squares_safety puts the king on. */
  function TransitSquares(colour: int, side: Side): seq<int>
  {
    var kf := CastlingPositions(colour, side).0;
    if side == Kingside then [kf + 1, kf + 2] else [kf - 1, kf - 2]
  }

  /** The squares _check_castling_squares_empty reads. */
  function BetweenSquares(colour: int, side: Side): seq<int>
  {
    var kf := CastlingPositions(colour, side).0;
    if side == Kingside then [kf + 1, kf + 2] else [kf - 1, kf - 2, kf - 3]
  }

  predicate AllEmpty(b: seq<int>, squares: seq<int>)
    requires |b| == BOARD_SIZE && forall k :: 0 <= k < |squares| ==> 0 <= squares[k] < BOARD_SIZE
  {
    forall k :: 0 <= k < |squares| ==> b[squares[k]] == EMPTY
  }

  /** The roster with the entry k (if any) put on `square`. */
  function MoveKing(ps: seq<MPiece>, k: Option<nat>, square: int): seq<MPiece>
    requires k.Some? ==> k.value < |ps|
  {
    if k.Some? then ps[k.value := ps[k.value].(pos := square)] else ps
  }

  /** The loop of _check_castling_squares_safety over `squares`: the king
      is put on each square in turn and the check query asked.  Each round
      leaves KING * colour on the king's square and EMPTY on the tested
      square, whatever stood there before. */
  function SafetyLoop(ps: seq<MPiece>, b: seq<int>, k: Option<nat>, kf: int, colour: int,
                      squares: seq<int>): (r: (bool, seq<int>))
    requires k.Some? ==> k.value < |ps|
    requires |b| == BOARD_SIZE && 0 <= kf < BOARD_SIZE && forall j :: 0 <= j < |squares| ==> 0 <= squares[j] < BOARD_SIZE
    ensures |r.1| == BOARD_SIZE
    decreases |squares|
  {
    if |squares| == 0 then (true, b)
    else
      var b1 := b[kf := KING * colour][squares[0] := EMPTY];
      if KingInCheck(MoveKing(ps, k, squares[0]), colour) then (false, b1)
      else SafetyLoop(ps, b1, k, kf, colour, squares[1..])
  }

  /** The loop over two squares: safe iff the king is not in check on
      either; the board it leaves. */
  lemma SafetyLoopTwo(ps: seq<MPiece>, b: seq<int>, k: Option<nat>, kf: int, colour: int, squares: seq<int>)
    requires k.Some? ==> k.value < |ps|
    requires |b| == BOARD_SIZE && 0 <= kf < BOARD_SIZE && |squares| == 2
    requires 0 <= squares[0] < BOARD_SIZE && 0 <= squares[1] < BOARD_SIZE
    ensures var r := SafetyLoop(ps, b, k, kf, colour, squares);
      var b1 := b[kf := KING * colour][squares[0] := EMPTY];
      (r.0 <==> !KingInCheck(MoveKing(ps, k, squares[0]), colour) && !KingInCheck(MoveKing(ps, k, squares[1]), colour)) &&
      r.1 == (if KingInCheck(MoveKing(ps, k, squares[0]), colour) then b1
              else b1[kf := KING * colour][squares[1] := EMPTY])
  {
    var b1 := b[kf := KING * colour][squares[0] := EMPTY];
    var rest := squares[1..];
    assert rest == [squares[1]];
    assert rest[1..] == [];
    var b2 := b1[kf := KING * colour][squares[1] := EMPTY];
    assert SafetyLoop(ps, b2, k, kf, colour, rest[1..]) == (true, b2);
  }

  lemma CastlingSquaresInRange(colour: int, side: Side)
    ensures forall j :: 0 <= j < |TransitSquares(colour, side)| ==> IsValidPosition(TransitSquares(colour, side)[j])
    ensures forall j :: 0 <= j < |BetweenSquares(colour, side)| ==> IsValidPosition(BetweenSquares(colour, side)[j])
    ensures InRange(CastlingPositions(colour, side).0)
  {
  }

  /** validate_castling as written, with the board it leaves behind: the
      basic requirements, no check, the safety loop, and only then the
      emptiness test, which reads the board the safety loop rewrote. */
  function ValidateCastling(s: MState, colour: int, side: Side): (r: (bool, seq<int>))
    requires |s.board| == BOARD_SIZE
    ensures |r.1| == BOARD_SIZE
  {
    CastlingSquaresInRange(colour, side);
    var kf := CastlingPositions(colour, side).0;
    if !BasicCastling(s, colour, side) then (false, s.board)
    else if KingInCheck(s.pieces, colour) then (false, s.board)
    else
      var (safe, b) := SafetyLoop(s.pieces, s.board, PieceAt(s.pieces, kf), kf, colour, TransitSquares(colour, side));
      if !safe then (false, b) else (AllEmpty(b, BetweenSquares(colour, side)), b)
  }

  /** What validate_castling checks, stated on the position it is given. */
  lemma ValidateCastlingRequirements(s: MState, colour: int, side: Side)
    requires |s.board| == BOARD_SIZE
    ensures ValidateCastling(s, colour, side).0 ==>
      BasicCastling(s, colour, side) && !KingInCheck(s.pieces, colour) &&
      forall j :: 0 <= j < |TransitSquares(colour, side)| ==>
        !KingInCheck(MoveKing(s.pieces, PieceAt(s.pieces, CastlingPositions(colour, side).0), TransitSquares(colour, side)[j]), colour)
  {
    CastlingSquaresInRange(colour, side);
    var kf := CastlingPositions(colour, side).0;
    SafetyLoopTwo(s.pieces, s.board, PieceAt(s.pieces, kf), kf, colour, TransitSquares(colour, side));
  }

  /** validate_castling leaves the board alone when it stops before the
      safety loop. */
  lemma ValidateCastlingBoardUnchanged(s: MState, colour: int, side: Side)
    requires |s.board| == BOARD_SIZE
    ensures !BasicCastling(s, colour, side) || KingInCheck(s.pieces, colour) ==>
      ValidateCastling(s, colour, side).1 == s.board
  {
  }

  /** The board that validate_castling leaves once the basic requirements
      hold and the king is not in check: the king's square holds
      KING * colour and the first transit square is EMPTY, whatever stood on
      them before; no other cell changes. */
  lemma ValidateCastlingBoard(s: MState, colour: int, side: Side)
    requires |s.board| == BOARD_SIZE && BasicCastling(s, colour, side) && !KingInCheck(s.pieces, colour)
    ensures var kf := CastlingPositions(colour, side).0; var b := ValidateCastling(s, colour, side).1;
      b[kf] == KING * colour && b[TransitSquares(colour, side)[0]] == EMPTY &&
      forall p :: 0 <= p < BOARD_SIZE && p != kf && p !in TransitSquares(colour, side) ==> b[p] == s.board[p]
  {
    CastlingSquaresInRange(colour, side);
    var kf := CastlingPositions(colour, side).0;
    var sq := TransitSquares(colour, side);
    var k := PieceAt(s.pieces, kf);
    SafetyLoopTwoFrame(s.pieces, s.board, k, kf, colour, sq);
    assert ValidateCastling(s, colour, side).1 == SafetyLoop(s.pieces, s.board, k, kf, colour, sq).1;
  }

  /** The cells the two-square safety loop writes: KING * colour on kf and
      EMPTY on the first square, perhaps EMPTY on the second; nothing
      else. */
  lemma SafetyLoopTwoFrame(ps: seq<MPiece>, b: seq<int>, k: Option<nat>, kf: int, colour: int, squares: seq<int>)
    requires k.Some? ==> k.value < |ps|
    requires |b| == BOARD_SIZE && 0 <= kf < BOARD_SIZE && |squares| == 2 && squares[0] != kf && squares[1] != kf
    requires 0 <= squares[0] < BOARD_SIZE && 0 <= squares[1] < BOARD_SIZE
    ensures var r := SafetyLoop(ps, b, k, kf, colour, squares).1;
      r[kf] == KING * colour && r[squares[0]] == EMPTY &&
      forall p :: 0 <= p < BOARD_SIZE && p != kf && p !in squares ==> r[p] == b[p]
  {
    SafetyLoopTwo(ps, b, k, kf, colour, squares);
  }

  /** validate_castling with the emptiness test on the position it is given
      and the board left alone: the behaviour the castling rule calls for. */
  predicate ValidateCastlingIntended(s: MState, colour: int, side: Side)
    requires |s.board| == BOARD_SIZE
  {
    CastlingSquaresInRange(colour, side);
    var kf := CastlingPositions(colour, side).0;
    BasicCastling(s, colour, side) && !KingInCheck(s.pieces, colour) &&
    AllEmpty(s.board, BetweenSquares(colour, side)) &&
    SafetyLoop(s.pieces, s.board, PieceAt(s.pieces, kf), kf, colour, TransitSquares(colour, side)).0
  }

  /** The intended test never lets the king pass an occupied square. */
  lemma ValidateCastlingIntendedSound(s: MState, colour: int, side: Side)
    requires |s.board| == BOARD_SIZE
    ensures ValidateCastlingIntended(s, colour, side) ==>
      forall j :: 0 <= j < |BetweenSquares(colour, side)| ==> s.board[BetweenSquares(colour, side)[j]] == EMPTY
  {
  }

  /** The intended test agrees with the written one whenever the squares
      between are empty and the king's square shows the king. */
  lemma ValidateCastlingIntendedAgrees(s: MState, colour: int, side: Side)
    requires |s.board| == BOARD_SIZE
    requires AllEmpty(s.board, BetweenSquares(colour, side)) && s.board[CastlingPositions(colour, side).0] == KING * colour
    ensures ValidateCastlingIntended(s, colour, side) <==> ValidateCastling(s, colour, side).0
  {
    CastlingSquaresInRange(colour, side);
    var kf := CastlingPositions(colour, side).0;
    var sq := TransitSquares(colour, side);
    var between := BetweenSquares(colour, side);
    assert sq[0] == between[0] && sq[1] == between[1];
    SafetyLoopKeepsBoard(s.pieces, s.board, PieceAt(s.pieces, kf), kf, colour, sq);
  }

  /** On a board that already shows the king on kf and EMPTY on every
      tested square, the safety loop writes nothing new. */
  lemma {:induction false} SafetyLoopKeepsBoard(ps: seq<MPiece>, b: seq<int>, k: Option<nat>, kf: int, colour: int,
                                                squares: seq<int>)
    requires k.Some? ==> k.value < |ps|
    requires |b| == BOARD_SIZE && 0 <= kf < BOARD_SIZE && forall j :: 0 <= j < |squares| ==> 0 <= squares[j] < BOARD_SIZE
    requires b[kf] == KING * colour && forall j :: 0 <= j < |squares| ==> b[squares[j]] == EMPTY
    ensures SafetyLoop(ps, b, k, kf, colour, squares).1 == b
    decreases |squares|
  {
    if |squares| > 0 {
      assert b[kf := KING * colour][squares[0] := EMPTY] == b;
      SafetyLoopKeepsBoard(ps, b, k, kf, colour, squares[1..]);
    }
  }

  // ---------------------------------------------------------------------
  // The counterexample: a bishop on f1 does not stop White's short castling

  /** White king e1, rook h1, bishop f1; Black king e8; board synchronized. */
  function BlockedCastlingPieces(): seq<MPiece>
  {
    [MPiece(1, KING, BLACK, 95, false, false), MPiece(2, KING, WHITE, 25, false, false),
     MPiece(3, BISHOP, WHITE, 26, false, false), MPiece(4, ROOK, WHITE, 28, false, false)]
  }

  function BlockedCastling(): MState
  {
    MState(SyncedBoard(BlockedCastlingPieces()), BlockedCastlingPieces(), true, false, false, 5, None, ALL_RIGHTS)
  }

  /** A king attacks only squares next to its own. */
  lemma KingAttacksNeighbours(ps: seq<MPiece>, king: MPiece, t: int)
    requires king.kind == KING
    ensures t in AttackedSquares(ps, king) ==> king.pos - 11 <= t <= king.pos + 11
  {
    if t in AttackedSquares(ps, king) {
      assert AttackedSquares(ps, king) == ValidTargets(king.pos, DIRECTIONS);
      var k :| 0 <= k < |DIRECTIONS| && t == king.pos + DIRECTIONS[k];
    }
  }

  /** A colour whose only piece is a king (entry 0) attacks no square more
      than eleven cells away from it. */
  lemma LoneKingAttacks(ps: seq<MPiece>, square: int, attacker: int)
    requires |ps| > 0 && ps[0].kind == KING && ps[0].colour == attacker
    requires forall i :: 1 <= i < |ps| ==> ps[i].colour != attacker
    requires square < ps[0].pos - 11 || square > ps[0].pos + 11
    ensures !SquareAttacked(ps, square, attacker)
  {
    forall i | 0 <= i < |ps| && !ps[i].captured && ps[i].colour == attacker
      ensures square !in AttackedSquares(ps, ps[i])
    {
      assert i == 0;
      KingAttacksNeighbours(ps, ps[0], square);
    }
  }

  /** In the counterexample position with White's king (entry 1) on a
      square of row 2, White is not in check: Black has only its king on e8. */
  lemma BlockedCastlingNoCheckOn(ps: seq<MPiece>, square: int)
    requires |ps| == 4 && ps[0] == MPiece(1, KING, BLACK, 95, false, false)
    requires ps[1] == MPiece(2, KING, WHITE, square, false, false)
    requires forall i :: 1 <= i < 4 ==> ps[i].colour == WHITE
    requires 20 <= square < 30
    ensures !KingInCheck(ps, WHITE)
  {
    assert King(ps, WHITE) == Some(1);
    LoneKingAttacks(ps, square, BLACK);
  }

  /** White is not in check with its king on e1, f1 or g1. */
  lemma BlockedCastlingNoCheck(square: int)
    requires 20 <= square < 30
    ensures !KingInCheck(MoveKing(BlockedCastlingPieces(), Some(1), square), WHITE)
  {
    var ps := BlockedCastlingPieces();
    var moved := MoveKing(ps, Some(1), square);
    assert moved == [ps[0], MPiece(2, KING, WHITE, square, false, false), ps[2], ps[3]];
    BlockedCastlingNoCheckOn(moved, square);
  }

  /** On any board, the safety loop of the example finds f1 and g1 safe
      and leaves them emptied. */
  lemma BlockedCastlingSafe(b: seq<int>)
    requires |b| == BOARD_SIZE
    ensures SafetyLoop(BlockedCastlingPieces(), b, Some(1), 25, WHITE, [26, 27]) ==
      (true, b[25 := KING][26 := EMPTY][25 := KING][27 := EMPTY])
    ensures AllEmpty(SafetyLoop(BlockedCastlingPieces(), b, Some(1), 25, WHITE, [26, 27]).1, [26, 27])
  {
    var ps := BlockedCastlingPieces();
    BlockedCastlingNoCheck(26);
    BlockedCastlingNoCheck(27);
    SafetyLoopTwo(ps, b, Some(1), 25, WHITE, [26, 27]);
  }

  /** The bishop stands on f1 (26), yet validate_castling reports White's
      short castling as possible, while the intended test refuses it. */
  lemma BlockedCastlingAccepted()
    ensures BlockedCastling().board[26] == BISHOP
    ensures ValidateCastling(BlockedCastling(), WHITE, Kingside).0
    ensures !ValidateCastlingIntended(BlockedCastling(), WHITE, Kingside)
  {
    var s := BlockedCastling();
    SyncedBoardHoldsLivePieces(s.pieces, 2);
    assert s.board[26] == BISHOP;
    BlockedRosterBasics(s);
    BlockedCastlingSafe(s.board);
    ValidateCastlingAccepts(s, WHITE, Kingside);
    BlockedRosterIntended(s);
  }

  /** With the example's roster and every right, the requirements before
      the safety loop hold, whatever the board holds. */
  lemma BlockedRosterBasics(s: MState)
    requires |s.board| == BOARD_SIZE && s.pieces == BlockedCastlingPieces() && s.castlingRights == ALL_RIGHTS
    ensures BasicCastling(s, WHITE, Kingside) && !KingInCheck(s.pieces, WHITE)
    ensures PieceAt(s.pieces, 25) == Some(1)
    ensures TransitSquares(WHITE, Kingside) == [26, 27] && BetweenSquares(WHITE, Kingside) == [26, 27]
  {
    var ps := BlockedCastlingPieces();
    assert PieceAt(ps, 25) == Some(1);
    assert PieceAt(ps, 28) == Some(3);
    BlockedCastlingNoCheckOn(ps, 25);
  }

  /** validate_castling accepts when the requirements hold, the safety
      loop passes and its board shows the squares between empty. */
  lemma ValidateCastlingAccepts(s: MState, colour: int, side: Side)
    requires |s.board| == BOARD_SIZE
    requires BasicCastling(s, colour, side) && !KingInCheck(s.pieces, colour)
    requires (CastlingSquaresInRange(colour, side);
      var kf := CastlingPositions(colour, side).0;
      var r := SafetyLoop(s.pieces, s.board, PieceAt(s.pieces, kf), kf, colour, TransitSquares(colour, side));
      r.0 && AllEmpty(r.1, BetweenSquares(colour, side)))
    ensures ValidateCastling(s, colour, side).0
  {
  }

  /** With the example's roster the intended test accepts White's short castling exactly when f1 and g1 are empty. */
  lemma BlockedRosterIntended(s: MState)
    requires |s.board| == BOARD_SIZE && s.pieces == BlockedCastlingPieces() && s.castlingRights == ALL_RIGHTS
    ensures ValidateCastlingIntended(s, WHITE, Kingside) <==> AllEmpty(s.board, [26, 27])
  {
    BlockedRosterBasics(s);
    BlockedCastlingSafe(s.board);
  }

  // ---------------------------------------------------------------------
  // Castling moves, generate_moves and the game end

  /** One block of _generate_special_moves after a positive
      validate_castling: the move of the king (found on its start square)
      with the rook's id, start and landing squares. */
  function CastlingMove(ps: seq<MPiece>, colour: int, side: Side): (ms: seq<MMove>)
    ensures |ms| <= 1
    ensures forall m :: m in ms ==>
      m.special == Castling && m.kind == KING && m.colour == colour &&
      m.rook.Some? && m.from == CastlingPositions(colour, side).0 && m.to == CastlingPositions(colour, side).1 &&
      m.rook.value.rookFrom == CastlingPositions(colour, side).2 && m.rook.value.rookTo == CastlingPositions(colour, side).3
  {
    var (kf, kt, rf, rt) := CastlingPositions(colour, side);
    var king := PieceAt(ps, kf);
    var rook := PieceAt(ps, rf);
    if king.Some? && ps[king.value].kind == KING && rook.Some? && ps[rook.value].kind == ROOK then
      [MMove(ps[king.value].id, KING, colour, kf, kt, None, None, Castling, false, None,
             Some(RookMove(ps[rook.value].id, rf, rt)))]
    else []
  }

  /** _generate_special_moves: king side, then queen side, the second test
      seeing the board the first one left. */
  function SpecialMoves(s: MState, colour: int): (r: (seq<MMove>, seq<int>))
    requires |s.board| == BOARD_SIZE
    ensures |r.1| == BOARD_SIZE
  {
    var (okK, b1) := ValidateCastling(s, colour, Kingside);
    var ks := if okK then CastlingMove(s.pieces, colour, Kingside) else [];
    var (okQ, b2) := ValidateCastling(s.(board := b1), colour, Queenside);
    var qs := if okQ then CastlingMove(s.pieces, colour, Queenside) else [];
    (ks + qs, b2)
  }

  /** The moves of the first n roster entries that are live and of the colour. */
  function PseudoMoves(ps: seq<MPiece>, ep: Option<int>, colour: int, n: nat): seq<MMove>
    requires n <= |ps|
  {
    if n == 0 then []
    else PseudoMoves(ps, ep, colour, n - 1) + OwnMoves(ps, ep, colour, ps[n - 1])
  }

  /** The moves one roster entry contributes: none unless it is live and of the colour. */
  function OwnMoves(ps: seq<MPiece>, ep: Option<int>, colour: int, piece: MPiece): seq<MMove>
  {
    if !piece.captured && piece.colour == colour then PieceMoves(ps, ep, piece) else []
  }

  /** The list comprehension keeping the moves is_move_legal accepts. */
  function LegalFilter(ps: seq<MPiece>, ms: seq<MMove>): (r: seq<MMove>)
    ensures forall m :: m in r <==> m in ms && MoveLegal(ps, m)
    ensures |r| <= |ms|
  {
    if |ms| == 0 then []
    else LegalFilter(ps, ms[..|ms| - 1]) + (if MoveLegal(ps, ms[|ms| - 1]) then [ms[|ms| - 1]] else [])
  }

  /** generate_moves: the legal moves and the board it leaves. */
  function GenerateMoves(s: MState, colour: int): (r: (seq<MMove>, seq<int>))
    requires |s.board| == BOARD_SIZE
    ensures |r.1| == BOARD_SIZE
  {
    var all := PseudoMoves(s.pieces, s.enPassantTarget, colour, |s.pieces|);
    var (special, b) := SpecialMoves(s, colour);
    (LegalFilter(s.pieces, all + special), b)
  }

  /** Every move generate_moves returns passes is_move_legal: its mover
      exists and the mover's king is not in check after it. */
  lemma GeneratedMovesAreLegal(s: MState, colour: int, m: MMove)
    requires |s.board| == BOARD_SIZE
    requires m in GenerateMoves(s, colour).0
    ensures PieceById(s.pieces, m.pieceId).Some?
    ensures !KingInCheck(ApplyToPieces(s.pieces, m), s.pieces[PieceById(s.pieces, m.pieceId).value].colour)
  {
  }

  /** The moves generate_active_moves keeps: a truthy capture_pos, en
      passant, or a truthy promotion_piece. */
  predicate IsActive(m: MMove)
  {
    Truthy(m.capturePos) || m.special == EnPassantCapture || Truthy(m.promotionPiece)
  }

  function ActiveFilter(ms: seq<MMove>): (r: seq<MMove>)
    ensures forall m :: m in r <==> m in ms && IsActive(m)
  {
    if |ms| == 0 then []
    else ActiveFilter(ms[..|ms| - 1]) + (if IsActive(ms[|ms| - 1]) then [ms[|ms| - 1]] else [])
  }

  /** _check_game_end: with no legal move for the side to move, checkmate if
      its king is in check and stalemate otherwise; the flags and the board
      generate_moves leaves. */
  function GameEnd(s: MState): (r: (bool, bool, seq<int>))
    requires |s.board| == BOARD_SIZE
    ensures |r.2| == BOARD_SIZE
    ensures !(r.0 && r.1)
    ensures var colour := if s.whiteTurn then WHITE else BLACK;
      (r.0 <==> |GenerateMoves(s, colour).0| == 0 && KingInCheck(s.pieces, colour)) &&
      (r.1 <==> |GenerateMoves(s, colour).0| == 0 && !KingInCheck(s.pieces, colour))
  {
    var colour := if s.whiteTurn then WHITE else BLACK;
    var (moves, b) := GenerateMoves(s, colour);
    if |moves| == 0 then
      (if KingInCheck(s.pieces, colour) then (true, false, b) else (false, true, b))
    else (false, false, b)
  }
}
