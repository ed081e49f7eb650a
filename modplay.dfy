/** Playing and taking back moves in the modular engine, as functions of
    the state: the rule updates of ChessRules (castling rights, en-passant
    target, promotion checks, en-passant validation, castling execution)
    and make_move, _save_state, _restore_state, undo_move and the position
    editor of core.py. */
module ModPlay {
  import opened Common
  import opened ModState
  import opened ModMoves
  import Notation

  // ---------------------------------------------------------------------
  // Castling rights

  /** _revoke_castling_rights: any colour but WHITE counts as Black. */
  function RevokeCastlingRights(r: Rights, colour: int): (r2: Rights)
    ensures forall side :: !HasCastlingRight(r2, colour, side)
    ensures forall side :: HasCastlingRight(r2, Opponent(colour), side) == HasCastlingRight(r, Opponent(colour), side)
    ensures RightsWithin(r2, r)
  {
    if colour == WHITE then r.(whiteKingside := false, whiteQueenside := false)
    else r.(blackKingside := false, blackQueenside := false)
  }

  /** _revoke_rook_castling_rights: only the wing whose rook starts on
      `rookPos` loses its right. */
  function RevokeRookCastlingRights(r: Rights, colour: int, rookPos: int): (r2: Rights)
    ensures forall side :: HasCastlingRight(r2, colour, side) <==>
      HasCastlingRight(r, colour, side) && rookPos != CastlingPositions(colour, side).2
    ensures forall side :: HasCastlingRight(r2, Opponent(colour), side) == HasCastlingRight(r, Opponent(colour), side)
    ensures RightsWithin(r2, r)
  {
    if colour == WHITE then
      (if rookPos == 28 then r.(whiteKingside := false)
       else if rookPos == 21 then r.(whiteQueenside := false) else r)
    else
      (if rookPos == 98 then r.(blackKingside := false)
       else if rookPos == 91 then r.(blackQueenside := false) else r)
  }

  /** update_castling_rights_after_move, reading the move's type and colour. */
  function UpdateCastlingRights(r: Rights, m: MMove): (r2: Rights)
    ensures RightsWithin(r2, r)
    ensures m.kind == KING ==> forall side :: !HasCastlingRight(r2, m.colour, side)
    ensures m.kind == ROOK ==> forall side :: HasCastlingRight(r2, m.colour, side) <==>
      HasCastlingRight(r, m.colour, side) && m.from != CastlingPositions(m.colour, side).2
    ensures m.kind != KING && m.kind != ROOK ==> r2 == r
    ensures forall side :: HasCastlingRight(r2, Opponent(m.colour), side) == HasCastlingRight(r, Opponent(m.colour), side)
  {
    if m.kind == KING then RevokeCastlingRights(r, m.colour)
    else if m.kind == ROOK then RevokeRookCastlingRights(r, m.colour, m.from)
    else r
  }

  // ---------------------------------------------------------------------
  // The en-passant target

  /** update_en_passant_after_move for a pawn move: cleared, then set to
      the square behind the pawn when it moved two rows. */
  function UpdateEnPassant(m: MMove): (ep: Option<int>)
    ensures ep.Some? <==> Abs(m.from / 10 - m.to / 10) == 2
    ensures ep.Some? && IsColour(m.colour) ==> ep.value == m.from + Forward(m.colour)
  {
    if Abs(m.from / 10 - m.to / 10) == 2 then Some(m.from + (if m.colour == WHITE then 10 else -10))
    else None
  }

  /** process_move: the en-passant target only after a pawn move, then the
      castling rights. */
  function ProcessMove(s: MState, m: MMove): (r: MState)
    ensures r == s.(enPassantTarget := r.enPassantTarget, castlingRights := r.castlingRights)
    ensures r.enPassantTarget == if m.kind == PAWN then UpdateEnPassant(m) else s.enPassantTarget
    ensures RightsWithin(r.castlingRights, s.castlingRights)
  {
    s.(enPassantTarget := if m.kind == PAWN then UpdateEnPassant(m) else s.enPassantTarget,
       castlingRights := UpdateCastlingRights(s.castlingRights, m))
  }

  /** The double step sets the target to the square the pawn crossed, and
      an enemy pawn beside the landing square is then offered en passant
      onto that square, capturing the pawn that moved. */
  lemma EnPassantAfterDoubleStep(ps: seq<MPiece>, m: MMove, q: MPiece, e: int)
    requires IsColour(m.colour) && m.to == m.from + 2 * Forward(m.colour)
    requires e == 1 || e == -1
    requires q.kind == PAWN && q.colour == Opponent(m.colour) && q.pos == m.to - e
    requires IsValidPosition(m.from + Forward(m.colour))
    requires PieceAt(ps, m.from + Forward(m.colour)).None?
    ensures UpdateEnPassant(m) == Some(m.from + Forward(m.colour))
    ensures CreateMove(q, m.from + Forward(m.colour), Some(m.to), EnPassantCapture, None)
              in PawnCapture(ps, UpdateEnPassant(m), q, Forward(q.colour) + e)
  {
    assert m.to / 10 == m.from / 10 + 2 * m.colour;
    assert q.pos + Forward(q.colour) + e == m.from + Forward(m.colour);
  }

  // ---------------------------------------------------------------------
  // Promotion

  /** check_pawn_promotion_required: a pawn move onto the last rank. */
  predicate PromotionRequired(m: MMove)
  {
    m.kind == PAWN && IsPromotionRank(m.to, m.colour)
  }

  /** _can_pawn_promote: a pawn standing on the last rank. */
  predicate CanPawnPromote(pawn: MPiece)
  {
    pawn.kind == PAWN && IsPromotionRank(pawn.pos, pawn.colour)
  }

  /** A push carries a promotion piece exactly when it needs one. */
  lemma PushPromotion(ps: seq<MPiece>, pawn: MPiece, m: MMove)
    requires pawn.kind == PAWN && m in PawnPushes(ps, pawn)
    ensures m.promotionPiece.Some? <==> PromotionRequired(m)
  {
    var one := pawn.pos + Forward(pawn.colour);
    if !IsPromotionRank(one, pawn.colour) {
      assert m.to == one || m.to == pawn.pos + 2 * Forward(pawn.colour);
      assert IsPromotionRank(pawn.pos + 2 * Forward(pawn.colour), pawn.colour) ==> pawn.pos / 10 != StartRow(pawn.colour);
    }
  }

  /** A capture onto an enemy piece carries a promotion piece exactly when
      it needs one. */
  lemma CapturePromotion(ps: seq<MPiece>, ep: Option<int>, pawn: MPiece, dir: int, m: MMove)
    requires pawn.kind == PAWN && m in PawnCapture(ps, ep, pawn, dir) && m.special != EnPassantCapture
    ensures m.promotionPiece.Some? <==> PromotionRequired(m)
  {
  }

  /** Apart from en passant, the pawn generator's promotion moves are
      exactly the pawn moves for which check_pawn_promotion_required holds. */
  lemma PromotionMovesRequirePromotion(ps: seq<MPiece>, ep: Option<int>, pawn: MPiece, m: MMove)
    requires pawn.kind == PAWN && m in PawnMoves(ps, ep, pawn) && m.special != EnPassantCapture
    ensures m.promotionPiece.Some? <==> PromotionRequired(m)
  {
    if m in PawnPushes(ps, pawn) {
      PushPromotion(ps, pawn, m);
    } else if m in PawnCapture(ps, ep, pawn, Forward(pawn.colour) + 1) {
      CapturePromotion(ps, ep, pawn, Forward(pawn.colour) + 1, m);
    } else {
      CapturePromotion(ps, ep, pawn, Forward(pawn.colour) - 1, m);
    }
  }

  /** get_available_promotion_pieces. */
  const PROMOTION_NAMES: seq<string> := ["queen", "rook", "bishop", "knight"]

  function LowerString(s: string): (l: string)
    ensures |l| == |s| && forall i :: 0 <= i < |s| ==> l[i] == Notation.Lower(s[i])
  {
    seq(|s|, i requires 0 <= i < |s| => Notation.Lower(s[i]))
  }

  /** _get_promotion_piece_type: the name, lower-cased, looked up in
      {queen: 9, rook: 5, bishop: 3, knight: 4}. */
  function PromotionPieceType(name: string): (r: Option<int>)
    ensures r.Some? <==> LowerString(name) in PROMOTION_NAMES
    ensures forall k :: 0 <= k < |PROMOTION_NAMES| && LowerString(name) == PROMOTION_NAMES[k] ==> r == Some(PROMOTION_PIECES[k])
  {
    var l := LowerString(name);
    if l == "queen" then Some(QUEEN)
    else if l == "rook" then Some(ROOK)
    else if l == "bishop" then Some(BISHOP)
    else if l == "knight" then Some(KNIGHT)
    else None
  }

  /** Each offered name maps to the promotion piece at the same place of
      the generator's list, and so does any spelling in other letter case. */
  lemma PromotionNamesRoundTrip(name: string, k: int)
    requires 0 <= k < |PROMOTION_NAMES|
    requires |name| == |PROMOTION_NAMES[k]| && forall i :: 0 <= i < |name| ==> Notation.Lower(name[i]) == PROMOTION_NAMES[k][i]
    ensures PromotionPieceType(name) == Some(PROMOTION_PIECES[k])
  {
    assert LowerString(name) == PROMOTION_NAMES[k];
  }

  // ---------------------------------------------------------------------
  // En-passant validation (ChessRules)

  /** _get_opponent_pawn_position_for_en_passant. */
  function OpponentPawnSquare(colour: int, target: int): int
  {
    if colour == WHITE then target - 10 else target + 10
  }

  /** _check_basic_en_passant_requirements: a pawn, one row and one file
      away from the target, which is EMPTY on the board. */
  predicate BasicEnPassant(b: seq<int>, pawn: MPiece, target: int)
    requires |b| == BOARD_SIZE && 0 <= target < BOARD_SIZE
  {
    pawn.kind == PAWN &&
    Abs(pawn.pos / 10 - target / 10) == 1 && Abs(pawn.pos % 10 - target % 10) == 1 &&
    b[target] == EMPTY
  }

  /** The roster _validate_no_self_check_after_en_passant tests: the pawn
      (entry pi) on the target and the live piece then found on the
      opponent pawn's square flagged captured. */
  function EnPassantTrial(ps: seq<MPiece>, pi: nat, target: int, oppSquare: int): (r: seq<MPiece>)
    requires pi < |ps|
    ensures |r| == |ps| && r[pi].pos == target
  {
    var ps1 := ps[pi := ps[pi].(pos := target)];
    var opp := PieceAt(ps1, oppSquare);
    if opp.Some? && opp.value != pi then ps1[opp.value := ps1[opp.value].(captured := true)]
    else if opp.Some? then ps1[pi := ps1[pi].(captured := true)]
    else ps1
  }

  /** validate_en_passant for the roster entry pi; the test's trial moves
      are undone, so only the answer remains. */
  predicate ValidateEnPassant(s: MState, pi: nat, target: int)
    requires |s.board| == BOARD_SIZE && 0 <= target < BOARD_SIZE && pi < |s.pieces|
  {
    var pawn := s.pieces[pi];
    var oppSquare := OpponentPawnSquare(pawn.colour, target);
    var opp := PieceAt(s.pieces, oppSquare);
    BasicEnPassant(s.board, pawn, target) &&
    s.enPassantTarget == Some(target) &&
    opp.Some? && s.pieces[opp.value].kind == PAWN && s.pieces[opp.value].colour == -pawn.colour &&
    !KingInCheck(EnPassantTrial(s.pieces, pi, target, oppSquare), pawn.colour)
  }

  /** What validate_en_passant demands: a pawn moving one row and one file
      onto an EMPTY target that is the en-passant target, an enemy pawn
      behind it, and no check on the own king afterwards. */
  lemma ValidateEnPassantRequirements(s: MState, pi: nat, target: int)
    requires |s.board| == BOARD_SIZE && 0 <= target < BOARD_SIZE && pi < |s.pieces|
    ensures ValidateEnPassant(s, pi, target) ==>
      var pawn := s.pieces[pi];
      pawn.kind == PAWN && s.board[target] == EMPTY && s.enPassantTarget == Some(target) &&
      Abs(pawn.pos / 10 - target / 10) == 1 && Abs(pawn.pos % 10 - target % 10) == 1 &&
      (exists j :: 0 <= j < |s.pieces| && !s.pieces[j].captured && s.pieces[j].pos == OpponentPawnSquare(pawn.colour, target) &&
         s.pieces[j].kind == PAWN && s.pieces[j].colour == -pawn.colour)
  {
    if ValidateEnPassant(s, pi, target) {
      var j := PieceAt(s.pieces, OpponentPawnSquare(s.pieces[pi].colour, target)).value;
      assert !s.pieces[j].captured;
    }
  }

  // ---------------------------------------------------------------------
  // Castling execution (ChessRules.execute_castling)

  /** The search of execute_castling for the rook: the first live rook of
      the colour on `square`. */
  function RookAt(ps: seq<MPiece>, colour: int, square: int): (r: Option<nat>)
    ensures r.Some? ==> r.value < |ps| && ps[r.value].kind == ROOK && ps[r.value].colour == colour &&
                        ps[r.value].pos == square && !ps[r.value].captured
    ensures r.Some? ==> forall j :: 0 <= j < r.value ==>
      ps[j].kind != ROOK || ps[j].colour != colour || ps[j].pos != square || ps[j].captured
    ensures r.None? <==> forall i :: 0 <= i < |ps| ==>
      ps[i].kind != ROOK || ps[i].colour != colour || ps[i].pos != square || ps[i].captured
  {
    FindIndex(ps, (p: MPiece) => p.kind == ROOK && p.colour == colour && p.pos == square && !p.captured)
  }

  /** The moving part of execute_castling, on the board validate_castling
      left: the first live king of the colour goes to the king's landing
      square and the live rook on the rook's start square to its landing
      square, on the board and in the roster; both rights of the colour are
      revoked. */
  function CastlingPlay(s: MState, colour: int, side: Side): (r: (bool, MState))
    requires |s.board| == BOARD_SIZE
    ensures |r.1.board| == BOARD_SIZE
  {
    CastlingGeometry(colour, side);
    var (kf, kt, rf, rt) := CastlingPositions(colour, side);
    var king := King(s.pieces, colour);
    var rook := RookAt(s.pieces, colour, rf);
    if king.None? || rook.None? then (false, s)
    else
      var ps1 := s.pieces[king.value := s.pieces[king.value].(pos := kt)];
      var ps2 := ps1[rook.value := ps1[rook.value].(pos := rt)];
      (true, s.(board := s.board[kf := EMPTY][kt := KING * colour][rf := EMPTY][rt := ROOK * colour],
                pieces := ps2, castlingRights := RevokeCastlingRights(s.castlingRights, colour)))
  }

  /** execute_castling: validate_castling (whose board stays), then the
      moving part.  The side to move stays. */
  function ExecuteCastling(s: MState, colour: int, side: Side): (r: (bool, MState))
    requires |s.board| == BOARD_SIZE
    ensures |r.1.board| == BOARD_SIZE
  {
    var (ok, b) := ValidateCastling(s, colour, side);
    if !ok then (false, s.(board := b)) else CastlingPlay(s.(board := b), colour, side)
  }

  /** With the own king and rook on their start squares, the moving part
      succeeds; king and rook then stand on their landing squares, in the
      roster and on the board, the start squares are EMPTY, and the colour
      has no castling right left. */
  lemma CastlingPlayEffect(s: MState, colour: int, side: Side)
    requires |s.board| == BOARD_SIZE && BasicCastling(s, colour, side)
    ensures var (ok, r) := CastlingPlay(s, colour, side);
      var (kf, kt, rf, rt) := CastlingPositions(colour, side);
      ok && r.whiteTurn == s.whiteTurn &&
      r.board[kt] == KING * colour && r.board[rt] == ROOK * colour &&
      r.board[kf] == EMPTY && r.board[rf] == EMPTY &&
      (forall sd :: !HasCastlingRight(r.castlingRights, colour, sd)) &&
      (exists i :: 0 <= i < |r.pieces| && r.pieces[i].kind == KING && r.pieces[i].colour == colour && r.pieces[i].pos == kt) &&
      (exists j :: 0 <= j < |r.pieces| && r.pieces[j].kind == ROOK && r.pieces[j].colour == colour && r.pieces[j].pos == rt)
  {
    CastlingGeometry(colour, side);
    var (kf, kt, rf, rt) := CastlingPositions(colour, side);
    var k := PieceAt(s.pieces, kf).value;
    var q := PieceAt(s.pieces, rf).value;
    assert s.pieces[k].kind == KING && s.pieces[k].colour == colour && !s.pieces[k].captured;
    assert s.pieces[q].kind == ROOK && s.pieces[q].colour == colour && s.pieces[q].pos == rf && !s.pieces[q].captured;
    var king := King(s.pieces, colour).value;
    var rook := RookAt(s.pieces, colour, rf).value;
    var ps1 := s.pieces[king := s.pieces[king].(pos := kt)];
    var ps2 := ps1[rook := ps1[rook].(pos := rt)];
    assert ps2[king].kind == KING && ps2[king].colour == colour && ps2[king].pos == kt;
    assert ps2[rook].kind == ROOK && ps2[rook].colour == colour && ps2[rook].pos == rt;
  }

  /** execute_castling succeeds exactly when validate_castling does, with
      the effects of the moving part. */
  lemma ExecuteCastlingEffect(s: MState, colour: int, side: Side)
    requires |s.board| == BOARD_SIZE
    ensures ExecuteCastling(s, colour, side).0 <==> ValidateCastling(s, colour, side).0
    ensures ExecuteCastling(s, colour, side).0 ==>
      ExecuteCastling(s, colour, side) == CastlingPlay(s.(board := ValidateCastling(s, colour, side).1), colour, side)
  {
    var (ok, b) := ValidateCastling(s, colour, side);
    if ok {
      ValidateCastlingRequirements(s, colour, side);
      assert BasicCastling(s.(board := b), colour, side);
      CastlingPlayEffect(s.(board := b), colour, side);
    }
  }

  // ---------------------------------------------------------------------
  // The generated moves name squares inside the board list

  predicate MovesOk(ms: seq<MMove>)
  {
    forall m :: m in ms ==> MoveOk(m)
  }

  predicate ColoursOk(ps: seq<MPiece>)
  {
    forall i :: 0 <= i < |ps| ==> IsColour(ps[i].colour)
  }

  lemma {:induction false} JumpsOk(ps: seq<MPiece>, piece: MPiece, offsets: seq<int>)
    requires IsValidPosition(piece.pos)
    ensures MovesOk(Jumps(ps, piece, offsets))
  {
    if |offsets| > 0 {
      JumpsOk(ps, piece, offsets[1..]);
    }
  }

  lemma {:induction false} SlideWalkOk(ps: seq<MPiece>, piece: MPiece, field: int, d: int)
    requires d != 0 && IsValidPosition(piece.pos)
    ensures MovesOk(SlideWalk(ps, piece, field, d))
    decreases if d > 0 then 100 - field else field
  {
    if IsValidPosition(field) && PieceAt(ps, field).None? {
      SlideWalkOk(ps, piece, field + d, d);
    }
  }

  lemma {:induction false} SlidesOk(ps: seq<MPiece>, piece: MPiece, dirs: seq<int>)
    requires NonZero(dirs) && IsValidPosition(piece.pos)
    ensures MovesOk(Slides(ps, piece, dirs))
  {
    if |dirs| > 0 {
      SlideWalkOk(ps, piece, piece.pos + dirs[0], dirs[0]);
      SlidesOk(ps, piece, dirs[1..]);
    }
  }

  /** Even the push of a pawn standing on its last rank, which leaves the
      playable squares, stays inside the 120-cell list. */
  lemma PawnPushesOk(ps: seq<MPiece>, pawn: MPiece)
    requires IsValidPosition(pawn.pos) && IsColour(pawn.colour)
    ensures MovesOk(PawnPushes(ps, pawn))
  {
    var one := pawn.pos + Forward(pawn.colour);
    assert 0 <= one < BOARD_SIZE;
    if pawn.pos / 10 == StartRow(pawn.colour) {
      assert 0 <= pawn.pos + 2 * Forward(pawn.colour) < BOARD_SIZE;
    }
  }

  lemma PawnCaptureOk(ps: seq<MPiece>, ep: Option<int>, pawn: MPiece, dir: int)
    requires IsValidPosition(pawn.pos) && IsColour(pawn.colour)
    ensures MovesOk(PawnCapture(ps, ep, pawn, dir))
  {
    var target := pawn.pos + dir;
    if IsValidPosition(target) {
      assert 0 <= target - Forward(pawn.colour) < BOARD_SIZE;
    }
  }

  lemma PawnMovesOk(ps: seq<MPiece>, ep: Option<int>, pawn: MPiece)
    requires IsValidPosition(pawn.pos) && IsColour(pawn.colour)
    ensures MovesOk(PawnMoves(ps, ep, pawn))
  {
    PawnPushesOk(ps, pawn);
    PawnCaptureOk(ps, ep, pawn, Forward(pawn.colour) + 1);
    PawnCaptureOk(ps, ep, pawn, Forward(pawn.colour) - 1);
  }

  lemma PieceMovesOk(ps: seq<MPiece>, ep: Option<int>, piece: MPiece)
    requires IsValidPosition(piece.pos) && IsColour(piece.colour)
    ensures MovesOk(PieceMoves(ps, ep, piece))
  {
    if piece.kind == PAWN {
      PawnMovesOk(ps, ep, piece);
    } else if piece.kind == ROOK {
      SlidesOk(ps, piece, ROOK_DIRECTIONS);
    } else if piece.kind == BISHOP {
      SlidesOk(ps, piece, BISHOP_DIRECTIONS);
    } else if piece.kind == QUEEN {
      SlidesOk(ps, piece, DIRECTIONS);
    } else if piece.kind == KNIGHT {
      JumpsOk(ps, piece, KNIGHT_MOVES);
    } else if piece.kind == KING {
      JumpsOk(ps, piece, DIRECTIONS);
    }
  }

  lemma OwnMovesOk(ps: seq<MPiece>, ep: Option<int>, colour: int, piece: MPiece)
    requires !piece.captured ==> IsValidPosition(piece.pos) && IsColour(piece.colour)
    ensures MovesOk(OwnMoves(ps, ep, colour, piece))
  {
    if !piece.captured && piece.colour == colour {
      PieceMovesOk(ps, ep, piece);
    }
  }

  lemma {:induction false} PseudoMovesOk(ps: seq<MPiece>, ep: Option<int>, colour: int, n: nat)
    requires n <= |ps| && RosterOk(ps) && ColoursOk(ps)
    ensures MovesOk(PseudoMoves(ps, ep, colour, n))
  {
    if n == 0 {
      assert PseudoMoves(ps, ep, colour, n) == [];
    } else {
      PseudoMovesOk(ps, ep, colour, n - 1);
      PseudoMovesStepOk(ps, ep, colour, n);
    }
  }

  lemma PseudoMovesStepOk(ps: seq<MPiece>, ep: Option<int>, colour: int, n: nat)
    requires 0 < n <= |ps| && RosterOk(ps) && ColoursOk(ps) && MovesOk(PseudoMoves(ps, ep, colour, n - 1))
    ensures MovesOk(PseudoMoves(ps, ep, colour, n))
  {
    var piece := ps[n - 1];
    assert !piece.captured ==> IsValidPosition(piece.pos) && IsColour(piece.colour);
    OwnMovesOk(ps, ep, colour, piece);
    var davor, eigene := PseudoMoves(ps, ep, colour, n - 1), OwnMoves(ps, ep, colour, piece);
    MovesOkConcat(davor, eigene);
    assert PseudoMoves(ps, ep, colour, n) == davor + eigene;
  }

  lemma MovesOkConcat(a: seq<MMove>, b: seq<MMove>)
    requires MovesOk(a) && MovesOk(b)
    ensures MovesOk(a + b)
  {
  }

  lemma SpecialMovesOk(s: MState, colour: int)
    requires |s.board| == BOARD_SIZE
    ensures MovesOk(SpecialMoves(s, colour).0)
  {
    CastlingGeometry(colour, Kingside);
    CastlingGeometry(colour, Queenside);
  }

  /** Every move generate_moves returns names squares inside the 120-cell
      list and, when it castles, carries its rook: make_move can be given it. */
  lemma GeneratedMovesOk(s: MState, colour: int)
    requires StateOk(s) && ColoursOk(s.pieces)
    ensures MovesOk(GenerateMoves(s, colour).0)
  {
    PseudoMovesOk(s.pieces, s.enPassantTarget, colour, |s.pieces|);
    SpecialMovesOk(s, colour);
  }

  // ---------------------------------------------------------------------
  // make_move, _save_state, _restore_state and undo_move

  /** _save_state: everything but the board. */
  function SaveState(s: MState): (h: Saved)
    ensures h.pieces == s.pieces && h.whiteTurn == s.whiteTurn && h.nextPieceId == s.nextPieceId
    ensures h.checkmate == s.checkmate && h.stalemate == s.stalemate
    ensures h.enPassantTarget == s.enPassantTarget && h.castlingRights == s.castlingRights
  {
    Saved(s.pieces, s.whiteTurn, s.checkmate, s.stalemate, s.nextPieceId, s.enPassantTarget, s.castlingRights)
  }

  /** _restore_state / the body of undo_move: every saved field back, then
      synchronize_board_state. */
  function Restore(s: MState, h: Saved): (r: MState)
    ensures r.board == SyncedBoard(h.pieces) && r.pieces == SyncedPieces(h.pieces)
    ensures r.whiteTurn == h.whiteTurn && r.checkmate == h.checkmate && r.stalemate == h.stalemate
    ensures r.nextPieceId == h.nextPieceId && r.enPassantTarget == h.enPassantTarget && r.castlingRights == h.castlingRights
  {
    Synchronize(s.(pieces := h.pieces, whiteTurn := h.whiteTurn, checkmate := h.checkmate, stalemate := h.stalemate,
                   nextPieceId := h.nextPieceId, enPassantTarget := h.enPassantTarget, castlingRights := h.castlingRights))
  }

  /** Restoring what was saved from a sound state gives the state back,
      with the board rewritten from the roster. */
  lemma RestoreSaved(s: MState)
    requires StateOk(s)
    ensures Restore(s, SaveState(s)) == s.(board := SyncedBoard(s.pieces))
  {
    SyncedPiecesKeepsGoodRoster(s.pieces);
  }

  /** The common tail of every successful path of make_move:
      synchronize_board_state, the turn flipped, _check_game_end. */
  function Finish(s: MState): (r: MState)
    requires |s.board| == BOARD_SIZE
    ensures |r.board| == BOARD_SIZE
    ensures r.pieces == SyncedPieces(s.pieces) && r.whiteTurn == !s.whiteTurn
    ensures r.nextPieceId == s.nextPieceId && r.enPassantTarget == s.enPassantTarget && r.castlingRights == s.castlingRights
    ensures !(r.checkmate && r.stalemate)
  {
    var s1 := Synchronize(s).(whiteTurn := !s.whiteTurn);
    var (cm, sm, b) := GameEnd(s1);
    s1.(checkmate := cm, stalemate := sm, board := b)
  }

  /** The roster of _execute_castling_move: king (entry i) to to_pos, rook
      (entry k) to rook_to, both marked as moved. */
  function CastlingRoster(ps: seq<MPiece>, i: nat, k: nat, m: MMove): (r: seq<MPiece>)
    requires i < |ps| && k < |ps| && m.rook.Some?
    ensures |r| == |ps|
  {
    var ps1 := ps[i := ps[i].(pos := m.to, hasMoved := true)];
    ps1[k := ps1[k].(pos := m.rook.value.rookTo, hasMoved := true)]
  }

  /** The roster of _execute_en_passant_move: the pawn to to_pos, then the
      live piece found on capture_pos flagged captured. */
  function EnPassantRoster(ps: seq<MPiece>, i: nat, m: MMove): (r: seq<MPiece>)
    requires i < |ps|
    ensures |r| == |ps|
  {
    var ps1 := ps[i := ps[i].(pos := m.to)];
    var victim := if m.capturePos.Some? then PieceAt(ps1, m.capturePos.value) else None;
    if victim.Some? then ps1[victim.value := ps1[victim.value].(captured := true)] else ps1
  }

  /** The live piece on to_pos (looked up before the move) flagged captured. */
  function CaptureOnTarget(ps: seq<MPiece>, m: MMove): (r: seq<MPiece>)
    ensures |r| == |ps|
  {
    var victim := PieceAt(ps, m.to);
    if victim.Some? then ps[victim.value := ps[victim.value].(captured := true)] else ps
  }

  /** The roster of _execute_promotion_move: capture on to_pos, the pawn to
      to_pos with the promotion type. */
  function PromotionRoster(ps: seq<MPiece>, i: nat, m: MMove): (r: seq<MPiece>)
    requires i < |ps| && m.promotionPiece.Some?
    ensures |r| == |ps|
  {
    var ps1 := CaptureOnTarget(ps, m);
    ps1[i := ps1[i].(pos := m.to, kind := m.promotionPiece.value)]
  }

  /** The roster of the normal path of make_move: capture on to_pos, the
      piece to to_pos and marked as moved. */
  function NormalRoster(ps: seq<MPiece>, i: nat, m: MMove): (r: seq<MPiece>)
    requires i < |ps|
    ensures |r| == |ps|
  {
    var ps1 := CaptureOnTarget(ps, m);
    ps1[i := ps1[i].(pos := m.to, hasMoved := true)]
  }

  /** Which path make_move takes for a move whose from_pos holds a piece. */
  datatype Path = CastlingPath | EnPassantPath | PromotionPath | NormalPath

  function PathOf(m: MMove): Path
  {
    if m.special == Castling then CastlingPath
    else if m.special == EnPassantCapture then EnPassantPath
    else if Truthy(m.promotionPiece) then PromotionPath
    else NormalPath
  }

  /** make_move: the state is saved first; without a piece on from_pos the
      saved state is read back (the entry stays on the stack) and the move
      fails; a castling move whose rook id is unknown fails with nothing
      else changed; every other move is played on its path. */
  function MakeMove(g: MGame, m: MMove): (r: (bool, MGame))
    requires |g.state.board| == BOARD_SIZE && MoveOk(m)
    ensures r.1.history == g.history + [SaveState(g.state)]
    ensures r.0 <==> PieceAt(g.state.pieces, m.from).Some? &&
                     (m.special == Castling ==> PieceById(g.state.pieces, m.rook.value.rookId).Some?)
    ensures PieceAt(g.state.pieces, m.from).None? ==> r.1.state == Restore(g.state, SaveState(g.state))
    ensures PieceAt(g.state.pieces, m.from).Some? && !r.0 ==> r.1.state == g.state
    ensures r.0 ==> r.1.state.whiteTurn == !g.state.whiteTurn && !(r.1.state.checkmate && r.1.state.stalemate)
    ensures |r.1.state.board| == BOARD_SIZE
  {
    var s := g.state;
    var h := SaveState(s);
    var history := g.history + [h];
    var at := PieceAt(s.pieces, m.from);
    if at.None? then (false, MGame(Restore(s, h), history))
    else
      var (ok, s2) := PlayPath(s, m, at.value);
      (ok, MGame(s2, history))
  }

  /** The part of make_move after the piece (entry i) was found: a castling
      move whose rook id is unknown fails with nothing changed; every other
      move is played on its path. */
  function PlayPath(s: MState, m: MMove, i: nat): (r: (bool, MState))
    requires |s.board| == BOARD_SIZE && MoveOk(m) && i < |s.pieces|
    ensures |r.1.board| == BOARD_SIZE
  {
    match PathOf(m)
    case CastlingPath =>
      var rook := PieceById(s.pieces, m.rook.value.rookId);
      if rook.None? then (false, s)
      else
        var rights := RevokeCastlingRights(s.castlingRights, s.pieces[i].colour);
        (true, Finish(s.(pieces := CastlingRoster(s.pieces, i, rook.value, m), castlingRights := rights)))
    case EnPassantPath =>
      (true, Finish(s.(pieces := EnPassantRoster(s.pieces, i, m))))
    case PromotionPath =>
      (true, Finish(s.(pieces := PromotionRoster(s.pieces, i, m))))
    case NormalPath =>
      (true, Finish(ProcessMove(s.(pieces := NormalRoster(s.pieces, i, m)), m)))
  }

  /** undo_move: false on an empty stack; otherwise the top entry is popped
      and restored. */
  function Undo(g: MGame): (r: (bool, MGame))
    ensures r.0 <==> |g.history| > 0
    ensures !r.0 ==> r.1 == g
    ensures r.0 ==> r.1.history == g.history[..|g.history| - 1] &&
                    r.1.state == Restore(g.state, g.history[|g.history| - 1])
  {
    if |g.history| == 0 then (false, g)
    else (true, MGame(Restore(g.state, g.history[|g.history| - 1]), g.history[..|g.history| - 1]))
  }

  /** undo_move right after make_move, on every path and whether the move
      succeeded or not, gives back the position before the move: roster,
      side to move, flags, next id, en-passant target and castling rights,
      with the board rewritten from the roster, and the stack as it was. */
  lemma UndoAfterMakeMove(g: MGame, m: MMove)
    requires GameOk(g) && MoveOk(m)
    ensures Undo(MakeMove(g, m).1) == (true, MGame(g.state.(board := SyncedBoard(g.state.pieces)), g.history))
  {
    var r := MakeMove(g, m).1;
    assert r.history[..|r.history| - 1] == g.history;
    RestoreSaved(g.state);
  }

  /** No path of make_move ever grants a castling right. */
  lemma MakeMoveRightsOnlyShrink(g: MGame, m: MMove)
    requires |g.state.board| == BOARD_SIZE && MoveOk(m)
    ensures RightsWithin(MakeMove(g, m).1.state.castlingRights, g.state.castlingRights)
  {
  }

  /** A successful castling move leaves its colour without castling rights,
      and so does any king move on the normal path; a rook moving from its
      corner on the normal path takes that wing's right only. */
  lemma MakeMoveRevokesRights(g: MGame, m: MMove)
    requires |g.state.board| == BOARD_SIZE && MoveOk(m)
    ensures var (ok, g2) := MakeMove(g, m);
      ok && PathOf(m) == CastlingPath ==>
        forall side :: !HasCastlingRight(g2.state.castlingRights, g.state.pieces[PieceAt(g.state.pieces, m.from).value].colour, side)
    ensures var (ok, g2) := MakeMove(g, m);
      ok && PathOf(m) == NormalPath && m.kind == KING ==>
        forall side :: !HasCastlingRight(g2.state.castlingRights, m.colour, side)
    ensures var (ok, g2) := MakeMove(g, m);
      ok && PathOf(m) == NormalPath && m.kind == ROOK ==>
        forall side :: HasCastlingRight(g2.state.castlingRights, m.colour, side) <==>
          HasCastlingRight(g.state.castlingRights, m.colour, side) && m.from != CastlingPositions(m.colour, side).2
  {
  }

  /** The en-passant target after make_move: set by update_en_passant only
      on the normal path for a pawn, unchanged on every other path (so a
      stale target survives a knight move, a castling or a promotion). */
  lemma MakeMoveEnPassantTarget(g: MGame, m: MMove)
    requires |g.state.board| == BOARD_SIZE && MoveOk(m)
    ensures var (ok, g2) := MakeMove(g, m);
      g2.state.enPassantTarget ==
        if ok && PathOf(m) == NormalPath && m.kind == PAWN then UpdateEnPassant(m) else g.state.enPassantTarget
  {
  }

  // ---------------------------------------------------------------------
  // Soundness of the state is kept

  predicate SameIds(a: seq<MPiece>, b: seq<MPiece>)
  {
    |a| == |b| && forall i :: 0 <= i < |a| ==> a[i].id == b[i].id
  }

  lemma SameIdsKeepIncreasing(a: seq<MPiece>, b: seq<MPiece>, next: int)
    requires SameIds(a, b) && IdsIncreasing(a, next)
    ensures IdsIncreasing(b, next)
  {
  }

  /** Every entry's square is inside the 120-cell list. */
  predicate InRangeAll(ps: seq<MPiece>)
  {
    forall i :: 0 <= i < |ps| ==> 0 <= ps[i].pos < BOARD_SIZE
  }

  lemma RosterOkInRange(ps: seq<MPiece>)
    requires RosterOk(ps)
    ensures InRangeAll(ps)
  {
    forall i | 0 <= i < |ps| ensures 0 <= ps[i].pos < BOARD_SIZE {
      assert InRange(ps[i].pos);
    }
  }

  /** After synchronizing, a roster whose squares are in range is sound and
      keeps its ids. */
  lemma SyncRepairs(ps: seq<MPiece>, next: int)
    requires InRangeAll(ps) && IdsIncreasing(ps, next)
    ensures RosterOk(SyncedPieces(ps)) && IdsIncreasing(SyncedPieces(ps), next)
  {
    SyncedPiecesOnBoard(ps);
    SyncedPiecesKeepIds(ps, next);
  }

  lemma CaptureOnTargetKeeps(ps: seq<MPiece>, m: MMove)
    ensures SameIds(ps, CaptureOnTarget(ps, m))
    ensures forall j :: 0 <= j < |ps| ==> CaptureOnTarget(ps, m)[j].pos == ps[j].pos
  {
  }

  /** The rosters of the four paths keep the ids, and every square stays
      in range when the move's squares are. */
  lemma PathRostersKeep(ps: seq<MPiece>, i: nat, k: nat, m: MMove)
    requires i < |ps| && k < |ps| && InRangeAll(ps) && MoveOk(m)
    ensures m.rook.Some? ==> SameIds(ps, CastlingRoster(ps, i, k, m)) && InRangeAll(CastlingRoster(ps, i, k, m))
    ensures SameIds(ps, EnPassantRoster(ps, i, m)) && InRangeAll(EnPassantRoster(ps, i, m))
    ensures m.promotionPiece.Some? ==> SameIds(ps, PromotionRoster(ps, i, m)) && InRangeAll(PromotionRoster(ps, i, m))
    ensures SameIds(ps, NormalRoster(ps, i, m)) && InRangeAll(NormalRoster(ps, i, m))
  {
    CaptureOnTargetKeeps(ps, m);
  }

  lemma FinishKeepsStateOk(s: MState)
    requires |s.board| == BOARD_SIZE && InRangeAll(s.pieces) && IdsIncreasing(s.pieces, s.nextPieceId)
    ensures StateOk(Finish(s))
  {
    SyncRepairs(s.pieces, s.nextPieceId);
  }

  /** Playing a path from a sound state gives a sound state. */
  lemma PathKeepsStateOk(s: MState, ps: seq<MPiece>, rights: Rights, m: MMove)
    requires StateOk(s) && SameIds(s.pieces, ps) && InRangeAll(ps)
    ensures StateOk(Finish(s.(pieces := ps, castlingRights := rights)))
    ensures StateOk(Finish(ProcessMove(s.(pieces := ps), m)))
  {
    SameIdsKeepIncreasing(s.pieces, ps, s.nextPieceId);
    FinishKeepsStateOk(s.(pieces := ps, castlingRights := rights));
    FinishKeepsStateOk(ProcessMove(s.(pieces := ps), m));
  }

  /** make_move keeps the engine state sound: the board has 120 cells,
      every live entry stands on a playable square, the ids increase and
      stay below next_piece_id, and so does every saved entry. */
  lemma MakeMoveKeepsGameOk(g: MGame, m: MMove)
    requires GameOk(g) && MoveOk(m)
    ensures GameOk(MakeMove(g, m).1)
  {
    var s := g.state;
    var g2 := MakeMove(g, m).1;
    assert SavedOk(SaveState(s));
    assert forall j :: 0 <= j < |g2.history| ==> SavedOk(g2.history[j]) by {
      assert forall j :: 0 <= j < |g.history| ==> g2.history[j] == g.history[j];
    }
    MakeMoveKeepsStateOk(g, m);
  }

  /** The state half of MakeMoveKeepsGameOk. */
  lemma MakeMoveKeepsStateOk(g: MGame, m: MMove)
    requires StateOk(g.state) && MoveOk(m)
    ensures StateOk(MakeMove(g, m).1.state)
  {
    var s := g.state;
    RosterOkInRange(s.pieces);
    var at := PieceAt(s.pieces, m.from);
    if at.None? {
      SyncRepairs(s.pieces, s.nextPieceId);
    } else {
      var i := at.value;
      var k := if m.rook.Some? && PieceById(s.pieces, m.rook.value.rookId).Some?
               then PieceById(s.pieces, m.rook.value.rookId).value else i;
      PathRostersKeep(s.pieces, i, k, m);
      match PathOf(m)
      case CastlingPath =>
        if PieceById(s.pieces, m.rook.value.rookId).Some? {
          PathKeepsStateOk(s, CastlingRoster(s.pieces, i, k, m),
                           RevokeCastlingRights(s.castlingRights, s.pieces[i].colour), m);
        }
      case EnPassantPath =>
        PathKeepsStateOk(s, EnPassantRoster(s.pieces, i, m), s.castlingRights, m);
        assert s.(pieces := EnPassantRoster(s.pieces, i, m), castlingRights := s.castlingRights)
            == s.(pieces := EnPassantRoster(s.pieces, i, m));
      case PromotionPath =>
        PathKeepsStateOk(s, PromotionRoster(s.pieces, i, m), s.castlingRights, m);
        assert s.(pieces := PromotionRoster(s.pieces, i, m), castlingRights := s.castlingRights)
            == s.(pieces := PromotionRoster(s.pieces, i, m));
      case NormalPath =>
        PathKeepsStateOk(s, NormalRoster(s.pieces, i, m), s.castlingRights, m);
    }
  }

  /** undo_move keeps the engine state sound. */
  lemma UndoKeepsGameOk(g: MGame)
    requires GameOk(g)
    ensures GameOk(Undo(g).1)
  {
    if |g.history| > 0 {
      var h := g.history[|g.history| - 1];
      assert SavedOk(h);
      RosterOkInRange(h.pieces);
      SyncRepairs(h.pieces, h.nextPieceId);
    }
  }

  // ---------------------------------------------------------------------
  // The position editor of core.py

  /** At most one live entry stands on `position`. */
  predicate Unshared(ps: seq<MPiece>, position: int)
  {
    forall i, j :: 0 <= i < j < |ps| && !ps[i].captured && !ps[j].captured ==>
      ps[i].pos != position || ps[j].pos != position
  }

  /** The first live entry on `position` flagged captured, if there is one. */
  function CaptureAt(ps: seq<MPiece>, position: int): (r: seq<MPiece>)
    ensures |r| == |ps|
  {
    var v := PieceAt(ps, position);
    if v.Some? then ps[v.value := ps[v.value].(captured := true)] else ps
  }

  /** editor_place_piece: false on a square that is not playable;
      otherwise the live piece found there is flagged captured, _add_piece
      appends the new piece with the next id, and the board is
      synchronized. */
  function EditorPlace(s: MState, kind: int, colour: int, position: int): (r: (bool, MState))
  {
    if !IsValidPosition(position) then (false, s)
    else
      var ps := CaptureAt(s.pieces, position) + [MPiece(s.nextPieceId, kind, colour, position, false, false)];
      (true, Synchronize(s.(pieces := ps, nextPieceId := s.nextPieceId + 1)))
  }

  /** editor_remove_piece: false when no live piece stands on the square;
      otherwise it is flagged captured and the board synchronized. */
  function EditorRemove(s: MState, position: int): (r: (bool, MState))
  {
    if PieceAt(s.pieces, position).None? then (false, s)
    else (true, Synchronize(s.(pieces := CaptureAt(s.pieces, position))))
  }

  /** editor_clear_board: every entry flagged captured, then the board
      synchronized. */
  function EditorClear(s: MState): (r: MState)
  {
    var ps := seq(|s.pieces|, i requires 0 <= i < |s.pieces| => s.pieces[i].(captured := true));
    Synchronize(s.(pieces := ps))
  }

  /** On a square with at most one live entry, CaptureAt leaves none. */
  lemma CaptureAtClears(ps: seq<MPiece>, position: int)
    requires Unshared(ps, position)
    ensures forall j :: 0 <= j < |ps| ==> CaptureAt(ps, position)[j].captured || CaptureAt(ps, position)[j].pos != position
  {
    var v := PieceAt(ps, position);
    if v.Some? {
      forall j | v.value < j < |ps|
        ensures ps[j].captured || ps[j].pos != position
      {
        assert 0 <= v.value < j < |ps|;
      }
    }
  }

  /** CaptureAt keeps ids, squares and types and only flags entries. */
  lemma CaptureAtKeeps(ps: seq<MPiece>, position: int)
    ensures forall j :: 0 <= j < |ps| ==>
      CaptureAt(ps, position)[j] == ps[j] || CaptureAt(ps, position)[j] == ps[j].(captured := true)
  {
  }

  /** editor_place_piece succeeds exactly on the playable squares and then
      leaves the new piece on the board: it is the last, live entry with
      the old next_piece_id, the square holds its value, the ids go on
      increasing, and a square that held at most one live piece holds only
      the new one. A failed call changes nothing. */
  lemma EditorPlacePuts(s: MState, kind: int, colour: int, position: int)
    requires StateOk(s)
    ensures var (ok, s2) := EditorPlace(s, kind, colour, position);
      (ok <==> IsValidPosition(position)) && (!ok ==> s2 == s)
    ensures var (ok, s2) := EditorPlace(s, kind, colour, position);
      ok ==> s2.board[position] == kind * colour &&
             s2.pieces[|s2.pieces| - 1] == MPiece(s.nextPieceId, kind, colour, position, false, false) &&
             StateOk(s2) && s2.nextPieceId == s.nextPieceId + 1
    ensures var (ok, s2) := EditorPlace(s, kind, colour, position);
      ok && Unshared(s.pieces, position) ==> PieceAt(s2.pieces, position) == Some(|s2.pieces| - 1)
  {
    if IsValidPosition(position) {
      EditorPlaceSucceeds(s, kind, colour, position);
      if Unshared(s.pieces, position) {
        EditorPlaceAlone(s, kind, colour, position);
      }
    }
  }

  /** A placement on a playable square: the new entry, its code on the
      board, a sound state. */
  lemma EditorPlaceSucceeds(s: MState, kind: int, colour: int, position: int)
    requires StateOk(s) && IsValidPosition(position)
    ensures var (ok, s2) := EditorPlace(s, kind, colour, position);
      ok && s2.board[position] == kind * colour &&
      s2.pieces == CaptureAt(s.pieces, position) + [MPiece(s.nextPieceId, kind, colour, position, false, false)] &&
      StateOk(s2) && s2.nextPieceId == s.nextPieceId + 1
  {
    var p := MPiece(s.nextPieceId, kind, colour, position, false, false);
    var ps1 := CaptureAt(s.pieces, position);
    var ps := ps1 + [p];
    assert ps[..|ps| - 1] == ps1;
    assert SyncedBoard(ps) == SyncedBoard(ps1)[position := Value(p)];
    assert RosterOk(ps);
    SyncedPiecesKeepsGoodRoster(ps);
    PlacedIdsIncreasing(s.pieces, position, p);
  }

  /** On a square that held at most one live entry, the new one is the
      only live entry there afterwards. */
  lemma EditorPlaceAlone(s: MState, kind: int, colour: int, position: int)
    requires StateOk(s) && IsValidPosition(position) && Unshared(s.pieces, position)
    ensures var (ok, s2) := EditorPlace(s, kind, colour, position);
      PieceAt(s2.pieces, position) == Some(|s2.pieces| - 1)
  {
    EditorPlaceSucceeds(s, kind, colour, position);
    CaptureAtClears(s.pieces, position);
  }

  /** The entry appended by editor_place_piece carries the next id. */
  lemma PlacedIdsIncreasing(ps: seq<MPiece>, position: int, p: MPiece)
    requires IdsIncreasing(ps, p.id)
    ensures IdsIncreasing(CaptureAt(ps, position) + [p], p.id + 1)
  {
    var ps1 := CaptureAt(ps, position);
    assert forall i :: 0 <= i < |ps| ==> ps1[i].id == ps[i].id;
  }

  /** editor_remove_piece succeeds exactly when a live piece stands on the
      square; when it stood there alone, no live piece is left there and a
      playable square becomes EMPTY. The ids and next_piece_id stay. */
  lemma EditorRemoveClears(s: MState, position: int)
    requires StateOk(s)
    ensures var (ok, s2) := EditorRemove(s, position);
      (ok <==> PieceAt(s.pieces, position).Some?) && (!ok ==> s2 == s) && StateOk(s2)
    ensures var (ok, s2) := EditorRemove(s, position);
      ok && Unshared(s.pieces, position) ==>
        PieceAt(s2.pieces, position).None? && (IsValidPosition(position) ==> s2.board[position] == EMPTY)
  {
    var v := PieceAt(s.pieces, position);
    if v.Some? {
      var ps := CaptureAt(s.pieces, position);
      assert RosterOk(ps);
      SyncedPiecesKeepsGoodRoster(ps);
      CaptureAtKeeps(s.pieces, position);
      assert forall i :: 0 <= i < |ps| ==> ps[i].id == s.pieces[i].id;
      if Unshared(s.pieces, position) {
        CaptureAtClears(s.pieces, position);
        if IsValidPosition(position) {
          SyncedBoardCell(ps, position);
        }
      }
    }
  }

  /** editor_clear_board leaves no live piece: every cell is back to the
      board initialize_board writes, and the roster keeps its length, ids,
      types, colours and squares. */
  lemma EditorClearEmpties(s: MState)
    requires StateOk(s)
    ensures var s2 := EditorClear(s);
      s2.board == InitialBoard() && StateOk(s2) && |s2.pieces| == |s.pieces| &&
      forall i :: 0 <= i < |s.pieces| ==> s2.pieces[i] == s.pieces[i].(captured := true)
  {
    var ps := seq(|s.pieces|, i requires 0 <= i < |s.pieces| => s.pieces[i].(captured := true));
    forall c | 0 <= c < BOARD_SIZE
      ensures SyncedBoard(ps)[c] == InitialBoard()[c]
    {
      SyncedBoardCell(ps, c);
      InitialBoardShape();
    }
    assert RosterOk(ps);
    SyncedPiecesKeepsGoodRoster(ps);
  }
}
