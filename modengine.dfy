/** The modular engine's objects: ChessRules (chessteg_modular/engine/rules.py)
    and ChesstegEngine (core.py) with the MoveGenerator of
    move_generation.py folded in, since every generator only reads and
    writes the engine's fields.  Each method is proved to leave the state
    the functions of ModState, ModMoves and ModPlay describe. */
module ModEngine {
  import opened Common
  import opened ModState
  import opened ModMoves
  import opened ModPlay

  /** One entry execute_castling appends to ChessRules.move_history. */
  datatype CastlingRecord = CastlingRecord(colour: int, side: Side, kingFrom: int, kingTo: int,
                                           rookFrom: int, rookTo: int)

  /** The sound engine states the generators run on: a 120-cell board, a
      roster inside it with increasing ids, and every colour WHITE or BLACK. */
  predicate EngineOk(s: MState)
  {
    StateOk(s) && ColoursOk(s.pieces)
  }

  /** The position initialize_pieces and synchronize_board_state set up:
      the 32 entries of the start layout with ids 1..32, White to move, no
      flags, next id 33, no en-passant target and every castling right. */
  function StartState(): MState
  {
    MState(SyncedBoard(StartPieces(32)), StartPieces(32), true, false, false, 33, None, ALL_RIGHTS)
  }

  /** The start position is one the generators can run on, with both
      kings in the roster and White to move. */
  lemma StartStateOk()
    ensures EngineOk(StartState())
    ensures King(StartState().pieces, WHITE).Some? && King(StartState().pieces, BLACK).Some?
  {
    StartRosterOk();
    StartKings();
  }

  lemma StartPiecesGrow(k: nat)
    requires k < 32
    ensures StartPieces(k + 1) == StartPieces(k) + [StartPiece(k)]
  {
  }

  /** The pawn rows of the start layout, entries 8..15 and 16..23. */
  lemma StartLayoutPawns()
    ensures forall k :: 8 <= k < 16 ==> START_LAYOUT[k] == (PAWN, BLACK, 73 + k)
    ensures forall k :: 16 <= k < 24 ==> START_LAYOUT[k] == (PAWN, WHITE, 15 + k)
  {
  }

  /** One round of SafetyLoop. */
  lemma SafetyLoopStep(ps: seq<MPiece>, b: seq<int>, k: Option<nat>, kf: int, colour: int, squares: seq<int>)
    requires k.Some? ==> k.value < |ps|
    requires |b| == BOARD_SIZE && 0 <= kf < BOARD_SIZE && forall j :: 0 <= j < |squares| ==> 0 <= squares[j] < BOARD_SIZE
    requires |squares| > 0
    ensures var b1 := b[kf := KING * colour][squares[0] := EMPTY];
      SafetyLoop(ps, b, k, kf, colour, squares) ==
        if KingInCheck(MoveKing(ps, k, squares[0]), colour) then (false, b1)
        else SafetyLoop(ps, b1, k, kf, colour, squares[1..])
  {
  }

  /** Moving the king twice is moving it to the second square; moving it
      to the square it stands on changes nothing. */
  lemma MoveKingTwice(ps: seq<MPiece>, k: Option<nat>, a: int, b: int)
    requires k.Some? ==> k.value < |ps|
    ensures MoveKing(MoveKing(ps, k, a), k, b) == MoveKing(ps, k, b)
    ensures k.Some? && ps[k.value].pos == b ==> MoveKing(ps, k, b) == ps
  {
  }

  /** One square of AttackRay. */
  lemma AttackRayStep(ps: seq<MPiece>, f: int, d: int)
    requires d != 0 && IsValidPosition(f)
    ensures AttackRay(ps, f, d) == [f] + (if PieceAt(ps, f).Some? then [] else AttackRay(ps, f + d, d))
  {
  }

  /** One square of SlideWalk. */
  lemma SlideWalkStep(ps: seq<MPiece>, piece: MPiece, f: int, d: int)
    requires d != 0 && IsValidPosition(f)
    ensures SlideWalk(ps, piece, f, d) ==
      var t := PieceAt(ps, f);
      if t.None? then [CreateMove(piece, f, None, NoSpecial, None)] + SlideWalk(ps, piece, f + d, d)
      else if ps[t.value].colour != piece.colour then [CreateMove(piece, f, Some(f), NoSpecial, None)]
      else []
  {
  }

  /** SpecialMoves from the results of its two validations. */
  lemma SpecialMovesParts(s: MState, colour: int, okK: bool, b1: seq<int>, ks: seq<MMove>,
                          okQ: bool, b2: seq<int>, qs: seq<MMove>)
    requires |s.board| == BOARD_SIZE
    requires (okK, b1) == ValidateCastling(s, colour, Kingside)
    requires ks == if okK then CastlingMove(s.pieces, colour, Kingside) else []
    requires (okQ, b2) == ValidateCastling(s.(board := b1), colour, Queenside)
    requires qs == if okQ then CastlingMove(s.pieces, colour, Queenside) else []
    ensures SpecialMoves(s, colour) == (ks + qs, b2)
  {
  }

  /** GameEnd from the legal moves of the side to move and its check test. */
  lemma GameEndParts(s: MState, legal: seq<MMove>, b: seq<int>)
    requires |s.board| == BOARD_SIZE
    requires legal == GenerateMoves(s, if s.whiteTurn then WHITE else BLACK).0
    requires b == GenerateMoves(s, if s.whiteTurn then WHITE else BLACK).1
    ensures GameEnd(s).0 == (|legal| == 0 && KingInCheck(s.pieces, if s.whiteTurn then WHITE else BLACK))
    ensures GameEnd(s).1 == (|legal| == 0 && !KingInCheck(s.pieces, if s.whiteTurn then WHITE else BLACK))
    ensures GameEnd(s).2 == b
  {
  }

  /** Each roster of make_move's paths keeps what the common tail needs:
      squares in range, increasing ids and colours. */
  predicate TailReady(r: seq<MPiece>, next: int)
  {
    InRangeAll(r) && IdsIncreasing(r, next) && ColoursOk(r)
  }

  lemma CastlingRosterSound(ps: seq<MPiece>, i: nat, k: nat, m: MMove, next: int)
    requires i < |ps| && k < |ps| && RosterOk(ps) && IdsIncreasing(ps, next) && ColoursOk(ps) && MoveOk(m) && m.rook.Some?
    ensures TailReady(CastlingRoster(ps, i, k, m), next)
  {
    RosterOkInRange(ps);
    PathRostersKeep(ps, i, k, m);
    SameIdsKeepIncreasing(ps, CastlingRoster(ps, i, k, m), next);
  }

  lemma EnPassantRosterSound(ps: seq<MPiece>, i: nat, m: MMove, next: int)
    requires i < |ps| && RosterOk(ps) && IdsIncreasing(ps, next) && ColoursOk(ps) && MoveOk(m)
    ensures TailReady(EnPassantRoster(ps, i, m), next)
  {
    RosterOkInRange(ps);
    PathRostersKeep(ps, i, i, m);
    SameIdsKeepIncreasing(ps, EnPassantRoster(ps, i, m), next);
  }

  lemma PromotionRosterSound(ps: seq<MPiece>, i: nat, m: MMove, next: int)
    requires i < |ps| && RosterOk(ps) && IdsIncreasing(ps, next) && ColoursOk(ps) && MoveOk(m) && m.promotionPiece.Some?
    ensures TailReady(PromotionRoster(ps, i, m), next)
  {
    RosterOkInRange(ps);
    PathRostersKeep(ps, i, i, m);
    SameIdsKeepIncreasing(ps, PromotionRoster(ps, i, m), next);
  }

  lemma NormalRosterSound(ps: seq<MPiece>, i: nat, m: MMove, next: int)
    requires i < |ps| && RosterOk(ps) && IdsIncreasing(ps, next) && ColoursOk(ps) && MoveOk(m)
    ensures TailReady(NormalRoster(ps, i, m), next)
  {
    RosterOkInRange(ps);
    PathRostersKeep(ps, i, i, m);
    SameIdsKeepIncreasing(ps, NormalRoster(ps, i, m), next);
  }

  /** One roster entry of PseudoMoves. */
  lemma PseudoMovesStep(ps: seq<MPiece>, ep: Option<int>, colour: int, n: nat)
    requires n < |ps|
    ensures PseudoMoves(ps, ep, colour, n + 1) ==
      PseudoMoves(ps, ep, colour, n) + OwnMoves(ps, ep, colour, ps[n])
  {
  }

  /** take_snapshot: a copy of roster, turn, flags and board. */
  datatype Snapshot = Snapshot(pieces: seq<MPiece>, whiteTurn: bool, checkmate: bool, stalemate: bool,
                               board: seq<int>)

  // ---------------------------------------------------------------------
  // ChessRules

  class Rules {
    var enPassantTarget: Option<int>
    var castlingRights: Rights
    var moveHistory: seq<CastlingRecord>

    constructor ()
      ensures enPassantTarget == None && castlingRights == ALL_RIGHTS && moveHistory == []
    {
      enPassantTarget := None;
      castlingRights := ALL_RIGHTS;
      moveHistory := [];
    }

    /** __init__ run again on the same object, as initialize_pieces does. */
    method Reset()
      modifies this
      ensures enPassantTarget == None && castlingRights == ALL_RIGHTS && moveHistory == []
    {
      enPassantTarget := None;
      castlingRights := ALL_RIGHTS;
      moveHistory := [];
    }

    method RevokeCastlingRights(colour: int)
      modifies this`castlingRights
      ensures castlingRights == ModPlay.RevokeCastlingRights(old(castlingRights), colour)
    {
      if colour == WHITE {
        castlingRights := castlingRights.(whiteKingside := false, whiteQueenside := false);
      } else {
        castlingRights := castlingRights.(blackKingside := false, blackQueenside := false);
      }
    }

    method RevokeRookCastlingRights(colour: int, rookPos: int)
      modifies this`castlingRights
      ensures castlingRights == ModPlay.RevokeRookCastlingRights(old(castlingRights), colour, rookPos)
    {
      if colour == WHITE {
        if rookPos == 28 {
          castlingRights := castlingRights.(whiteKingside := false);
        } else if rookPos == 21 {
          castlingRights := castlingRights.(whiteQueenside := false);
        }
      } else {
        if rookPos == 98 {
          castlingRights := castlingRights.(blackKingside := false);
        } else if rookPos == 91 {
          castlingRights := castlingRights.(blackQueenside := false);
        }
      }
    }

    /** update_castling_rights_after_move. */
    method UpdateCastlingRightsAfterMove(m: MMove)
      modifies this`castlingRights
      ensures castlingRights == UpdateCastlingRights(old(castlingRights), m)
    {
      if m.kind == KING {
        RevokeCastlingRights(m.colour);
      } else if m.kind == ROOK {
        RevokeRookCastlingRights(m.colour, m.from);
      }
    }

    /** update_en_passant_after_move: cleared, then set behind a pawn that
      moved two rows. */
    method UpdateEnPassantAfterMove(m: MMove)
      modifies this`enPassantTarget
      ensures enPassantTarget == if m.kind == PAWN then UpdateEnPassant(m) else None
    {
      enPassantTarget := None;
      if m.kind == PAWN {
        var fromRow := m.from / 10;
        var toRow := m.to / 10;
        if Abs(fromRow - toRow) == 2 {
          var direction := if m.colour == WHITE then 10 else -10;
          enPassantTarget := Some(m.from + direction);
        }
      }
    }

    /** process_move: the en-passant target after a pawn move, then the
      castling rights. */
    method ProcessMove(m: MMove)
      modifies this`enPassantTarget, this`castlingRights
      ensures enPassantTarget == (if m.kind == PAWN then UpdateEnPassant(m) else old(enPassantTarget))
      ensures castlingRights == UpdateCastlingRights(old(castlingRights), m)
    {
      if m.kind == PAWN {
        UpdateEnPassantAfterMove(m);
      }
      UpdateCastlingRightsAfterMove(m);
    }

    /** _check_basic_castling_requirements. */
    method CheckBasicCastlingRequirements(engine: Engine, colour: int, side: Side) returns (ok: bool)
      requires engine.rules == this
      ensures ok == BasicCastling(engine.State(), colour, side)
    {
      var (kf, _, rf, _) := CastlingPositions(colour, side);
      if !HasCastlingRight(castlingRights, colour, side) {
        return false;
      }
      var king := engine.GetPieceAt(kf);
      var rook := engine.GetPieceAt(rf);
      if king.None? || engine.pieces[king.value].kind != KING || engine.pieces[king.value].colour != colour {
        return false;
      }
      if rook.None? || engine.pieces[rook.value].kind != ROOK || engine.pieces[rook.value].colour != colour {
        return false;
      }
      return true;
    }

    /** _check_castling_squares_safety: the king is put on each transit
      square in turn, the test asked, KING * colour written back on its
      own square and the tested square cleared; its roster square is put
      back on every way out. */
    method CheckCastlingSquaresSafety(engine: Engine, colour: int, side: Side) returns (safe: bool)
      requires engine.rules == this && |engine.board| == BOARD_SIZE
      modifies engine`board, engine`pieces
      ensures engine.pieces == old(engine.pieces)
      ensures var kf := CastlingPositions(colour, side).0;
        (safe, engine.board) == SafetyLoop(old(engine.pieces), old(engine.board), PieceAt(old(engine.pieces), kf),
                                           kf, colour, TransitSquares(colour, side))
    {
      CastlingSquaresInRange(colour, side);
      var kf := CastlingPositions(colour, side).0;
      var squares := TransitSquares(colour, side);
      ghost var ps := engine.pieces;
      ghost var b0 := engine.board;
      var king := engine.GetPieceAt(kf);
      ghost var current := kf;
      MoveKingTwice(ps, king, kf, kf);
      var j := 0;
      while j < |squares|
        invariant 0 <= j <= |squares| && |engine.board| == BOARD_SIZE
        invariant engine.pieces == MoveKing(ps, king, current)
        invariant SafetyLoop(ps, engine.board, king, kf, colour, squares[j..]) ==
                  SafetyLoop(ps, b0, king, kf, colour, squares)
      {
        var square := squares[j];
        ghost var before := engine.board;
        var inCheck := TryKingOn(engine, king, kf, square, colour);
        MoveKingTwice(ps, king, current, square);
        current := square;
        assert squares[j..][0] == square;
        SafetyLoopStep(ps, before, king, kf, colour, squares[j..]);
        if inCheck {
          PutKingBack(engine, king, kf);
          MoveKingTwice(ps, king, current, kf);
          return false;
        }
        assert squares[j..][1..] == squares[j + 1..];
        j := j + 1;
      }
      PutKingBack(engine, king, kf);
      MoveKingTwice(ps, king, current, kf);
      return true;
    }

    /** The restore of _check_castling_squares_safety: the king's roster
      square set back to kf. */
    method PutKingBack(engine: Engine, king: Option<nat>, kf: int)
      requires king.Some? ==> king.value < |engine.pieces|
      modifies engine`pieces
      ensures engine.pieces == MoveKing(old(engine.pieces), king, kf)
    {
      if king.Some? {
        engine.pieces := engine.pieces[king.value := engine.pieces[king.value].(pos := kf)];
      }
    }

    /** One round of the safety loop: the king written on `square` on the
      board and moved there in the roster, the check query asked, and
      KING * colour written back on kf with `square` cleared. */
    method TryKingOn(engine: Engine, king: Option<nat>, kf: int, square: int, colour: int) returns (inCheck: bool)
      requires |engine.board| == BOARD_SIZE && 0 <= kf < BOARD_SIZE && 0 <= square < BOARD_SIZE && kf != square
      requires king.Some? ==> king.value < |engine.pieces|
      modifies engine`board, engine`pieces
      ensures engine.pieces == MoveKing(old(engine.pieces), king, square)
      ensures engine.board == old(engine.board)[kf := KING * colour][square := EMPTY]
      ensures inCheck == KingInCheck(engine.pieces, colour)
    {
      engine.board := engine.board[kf := EMPTY][square := KING * colour];
      if king.Some? {
        engine.pieces := engine.pieces[king.value := engine.pieces[king.value].(pos := square)];
      }
      inCheck := engine.IsKingInCheck(colour);
      engine.board := engine.board[kf := KING * colour][square := EMPTY];
    }

    /** _check_castling_squares_empty: every square between king and rook
      is EMPTY on the board as it is now. */
    method CheckCastlingSquaresEmpty(engine: Engine, colour: int, side: Side) returns (empty: bool)
      requires |engine.board| == BOARD_SIZE
      ensures empty == AllEmpty(engine.board, BetweenSquares(colour, side))
    {
      CastlingSquaresInRange(colour, side);
      var kf := CastlingPositions(colour, side).0;
      var squares := if side == Kingside then [kf + 1, kf + 2] else [kf - 1, kf - 2, kf - 3];
      var j := 0;
      while j < |squares|
        invariant 0 <= j <= |squares|
        invariant forall k :: 0 <= k < j ==> engine.board[squares[k]] == EMPTY
      {
        if engine.board[squares[j]] != EMPTY {
          return false;
        }
        j := j + 1;
      }
      return true;
    }

    /** validate_castling: the basic requirements, no check, the safety
      loop, then the emptiness test on the board the loop left. */
    method ValidateCastling(engine: Engine, colour: int, side: Side) returns (ok: bool)
      requires engine.rules == this && |engine.board| == BOARD_SIZE
      modifies engine`board, engine`pieces
      ensures engine.pieces == old(engine.pieces)
      ensures (ok, engine.board) == ModMoves.ValidateCastling(old(engine.State()), colour, side)
    {
      var basic := CheckBasicCastlingRequirements(engine, colour, side);
      if !basic {
        return false;
      }
      var inCheck := engine.IsKingInCheck(colour);
      if inCheck {
        return false;
      }
      var safe := CheckCastlingSquaresSafety(engine, colour, side);
      if !safe {
        return false;
      }
      ok := CheckCastlingSquaresEmpty(engine, colour, side);
    }

    /** execute_castling: validate_castling, then the first live king of
      the colour and the live rook on the rook's start square are moved on
      the board and in the roster, the colour's rights are revoked and a
      record is appended to move_history.  The side to move stays. */
    method ExecuteCastling(engine: Engine, colour: int, side: Side) returns (ok: bool)
      requires engine.rules == this && |engine.board| == BOARD_SIZE
      modifies engine`board, engine`pieces, this`castlingRights, this`moveHistory
      ensures (ok, engine.State()) == ModPlay.ExecuteCastling(old(engine.State()), colour, side)
      ensures var (kf, kt, rf, rt) := CastlingPositions(colour, side);
        moveHistory == old(moveHistory) + (if ok then [CastlingRecord(colour, side, kf, kt, rf, rt)] else [])
    {
      var valid := ValidateCastling(engine, colour, side);
      if !valid {
        return false;
      }
      ok := PlayCastling(engine, colour, side);
    }

    /** The moving part of execute_castling, once validate_castling has
      passed. */
    method PlayCastling(engine: Engine, colour: int, side: Side) returns (ok: bool)
      requires engine.rules == this && |engine.board| == BOARD_SIZE
      modifies engine`board, engine`pieces, this`castlingRights, this`moveHistory
      ensures (ok, engine.State()) == CastlingPlay(old(engine.State()), colour, side)
      ensures var (kf, kt, rf, rt) := CastlingPositions(colour, side);
        moveHistory == old(moveHistory) + (if ok then [CastlingRecord(colour, side, kf, kt, rf, rt)] else [])
    {
      var (kf, kt, rf, rt) := CastlingPositions(colour, side);
      CastlingGeometry(colour, side);
      var king := engine.GetKing(colour);
      if king.None? {
        return false;
      }
      var rook := FindRook(engine, colour, rf);
      if rook.None? {
        return false;
      }
      var r := rook.value;
      engine.board := engine.board[kf := EMPTY][kt := KING * colour];
      engine.pieces := engine.pieces[king.value := engine.pieces[king.value].(pos := kt)];
      engine.board := engine.board[rf := EMPTY][rt := ROOK * colour];
      engine.pieces := engine.pieces[r := engine.pieces[r].(pos := rt)];
      RevokeCastlingRights(colour);
      moveHistory := moveHistory + [CastlingRecord(colour, side, kf, kt, rf, rt)];
      return true;
    }

    /** The search of execute_castling for the rook: the first live rook
      of the colour on `square`. */
    method FindRook(engine: Engine, colour: int, square: int) returns (r: Option<nat>)
      ensures r == RookAt(engine.pieces, colour, square)
    {
      var i := 0;
      while i < |engine.pieces|
        invariant 0 <= i <= |engine.pieces|
        invariant forall j :: 0 <= j < i ==> engine.pieces[j].kind != ROOK || engine.pieces[j].colour != colour ||
                                             engine.pieces[j].pos != square || engine.pieces[j].captured
      {
        var p := engine.pieces[i];
        if p.kind == ROOK && p.colour == colour && p.pos == square && !p.captured {
          return Some(i);
        }
        i := i + 1;
      }
      return None;
    }

    /** _check_basic_en_passant_requirements. */
    method CheckBasicEnPassantRequirements(engine: Engine, pawn: MPiece, target: int) returns (ok: bool)
      requires |engine.board| == BOARD_SIZE && 0 <= target < BOARD_SIZE
      ensures ok == BasicEnPassant(engine.board, pawn, target)
    {
      if pawn.kind != PAWN {
        return false;
      }
      var rowDiff := Abs(pawn.pos / 10 - target / 10);
      var colDiff := Abs(pawn.pos % 10 - target % 10);
      if !(rowDiff == 1 && colDiff == 1) {
        return false;
      }
      if engine.board[target] != EMPTY {
        return false;
      }
      return true;
    }

    /** _validate_no_self_check_after_en_passant: the pawn (roster entry pi)
      is put on the target and the piece then found behind it flagged, the
      check query asked, and board and roster put back from copies. */
    method ValidateNoSelfCheckAfterEnPassant(engine: Engine, pi: nat, target: int, oppSquare: int) returns (ok: bool)
      requires |engine.board| == BOARD_SIZE && 0 <= target < BOARD_SIZE && pi < |engine.pieces|
      requires RosterOk(engine.pieces)
      modifies engine`board, engine`pieces
      ensures engine.board == old(engine.board) && engine.pieces == old(engine.pieces)
      ensures ok == !KingInCheck(EnPassantTrial(old(engine.pieces), pi, target, oppSquare), old(engine.pieces)[pi].colour)
    {
      var originalBoard := engine.board;
      var originalPieces := engine.pieces;
      var colour := engine.pieces[pi].colour;
      var from := engine.pieces[pi].pos;
      assert InRange(from);
      engine.board := engine.board[from := EMPTY][target := PAWN * colour];
      engine.pieces := engine.pieces[pi := engine.pieces[pi].(pos := target)];
      var opp := engine.GetPieceAt(oppSquare);
      if opp.Some? {
        assert opp.value == pi || InRange(originalPieces[opp.value].pos);
        engine.board := engine.board[oppSquare := EMPTY];
        engine.pieces := engine.pieces[opp.value := engine.pieces[opp.value].(captured := true)];
      }
      assert engine.pieces == EnPassantTrial(originalPieces, pi, target, oppSquare);
      var inCheck := engine.IsKingInCheck(colour);
      engine.board := originalBoard;
      engine.pieces := originalPieces;
      ok := !inCheck;
    }

    /** validate_en_passant for the roster entry pi: the basic requirements,
      the target is the en-passant target, an enemy pawn stands behind it,
      and the trial capture leaves the own king out of check. */
    method ValidateEnPassant(engine: Engine, pi: nat, target: int) returns (ok: bool)
      requires engine.rules == this && |engine.board| == BOARD_SIZE && 0 <= target < BOARD_SIZE
      requires pi < |engine.pieces| && RosterOk(engine.pieces)
      modifies engine`board, engine`pieces
      ensures engine.board == old(engine.board) && engine.pieces == old(engine.pieces)
      ensures ok == ModPlay.ValidateEnPassant(old(engine.State()), pi, target)
    {
      var pawn := engine.pieces[pi];
      var basic := CheckBasicEnPassantRequirements(engine, pawn, target);
      if !basic {
        return false;
      }
      if enPassantTarget.None? {
        return false;
      }
      if target != enPassantTarget.value {
        return false;
      }
      var oppSquare := OpponentPawnSquare(pawn.colour, target);
      var opp := engine.GetPieceAt(oppSquare);
      if opp.None? || engine.pieces[opp.value].kind != PAWN || engine.pieces[opp.value].colour != -pawn.colour {
        return false;
      }
      ok := ValidateNoSelfCheckAfterEnPassant(engine, pi, target, oppSquare);
    }
  }

  // ---------------------------------------------------------------------
  // ChesstegEngine

  class Engine {
    var board: seq<int>
    var pieces: seq<MPiece>
    var whiteTurn: bool
    var checkmate: bool
    var stalemate: bool
    var nextPieceId: int
    var moveHistory: seq<Saved>
    const rules: Rules

    /** The engine together with its rules' state. */
    function State(): MState
      reads this, rules
    {
      MState(board, pieces, whiteTurn, checkmate, stalemate, nextPieceId,
             rules.enPassantTarget, rules.castlingRights)
    }

    function Game(): MGame
      reads this, rules
    {
      MGame(State(), moveHistory)
    }

    /** __init__: an empty board and roster, the components, then
      initialize_board, initialize_pieces and synchronize_board_state. */
    constructor ()
      ensures fresh(rules)
      ensures Game() == MGame(StartState(), []) && rules.moveHistory == []
    {
      board := seq(BOARD_SIZE, _ => EMPTY);
      pieces := [];
      whiteTurn := true;
      checkmate := false;
      stalemate := false;
      nextPieceId := 1;
      moveHistory := [];
      rules := new Rules();
      new;
      InitializeBoard();
      InitializePieces();
      SynchronizeBoardState();
      StartRosterOk();
      SyncedPiecesKeepsGoodRoster(StartPieces(32));
    }

    // -------------------------------------------------------------------
    // Roster searches

    /** get_piece_at: the first live entry on `position`. */
    method GetPieceAt(position: int) returns (r: Option<nat>)
      ensures r == PieceAt(pieces, position)
    {
      var i := 0;
      while i < |pieces|
        invariant 0 <= i <= |pieces|
        invariant forall j :: 0 <= j < i ==> pieces[j].captured || pieces[j].pos != position
      {
        if !pieces[i].captured && pieces[i].pos == position {
          return Some(i);
        }
        i := i + 1;
      }
      return None;
    }

    /** get_piece_by_id: the first entry with the id, captured or not. */
    method GetPieceById(id: int) returns (r: Option<nat>)
      ensures r == PieceById(pieces, id)
    {
      var i := 0;
      while i < |pieces|
        invariant 0 <= i <= |pieces|
        invariant forall j :: 0 <= j < i ==> pieces[j].id != id
      {
        if pieces[i].id == id {
          return Some(i);
        }
        i := i + 1;
      }
      return None;
    }

    /** get_king: the first live king of the colour. */
    method GetKing(colour: int) returns (r: Option<nat>)
      ensures r == King(pieces, colour)
    {
      var i := 0;
      while i < |pieces|
        invariant 0 <= i <= |pieces|
        invariant forall j :: 0 <= j < i ==> pieces[j].kind != KING || pieces[j].colour != colour || pieces[j].captured
      {
        if pieces[i].kind == KING && pieces[i].colour == colour && !pieces[i].captured {
          return Some(i);
        }
        i := i + 1;
      }
      return None;
    }

    // -------------------------------------------------------------------
    // The board

    /** initialize_board: EMPTY everywhere, then DUMMY on rows 0 and 11 and
      on the columns 0 and 9 of rows 1 to 10. */
    method InitializeBoard()
      modifies this`board
      ensures board == InitialBoard()
    {
      board := seq(BOARD_SIZE, _ => EMPTY);
      var i := 0;
      while i < 10
        invariant 0 <= i <= 10 && |board| == BOARD_SIZE
        invariant forall c :: 0 <= c < BOARD_SIZE ==>
          board[c] == (if c < i || 110 <= c < 110 + i then DUMMY else EMPTY)
      {
        board := board[i := DUMMY][110 + i := DUMMY];
        i := i + 1;
      }
      i := 1;
      while i < 11
        invariant 1 <= i <= 11 && |board| == BOARD_SIZE
        invariant forall c :: 0 <= c < BOARD_SIZE ==>
          board[c] == (if c < 10 || c >= 110 || (c < 10 * i && (c % 10 == 0 || c % 10 == 9)) then DUMMY else EMPTY)
      {
        board := board[i * 10 := DUMMY][i * 10 + 9 := DUMMY];
        i := i + 1;
      }
    }

    /** synchronize_board_state: the board rewritten from the roster, and a
      live entry off the playable squares flagged captured. */
    method SynchronizeBoardState()
      modifies this`board, this`pieces
      ensures board == SyncedBoard(old(pieces)) && pieces == SyncedPieces(old(pieces))
    {
      InitializeBoard();
      ghost var ps := pieces;
      var i := 0;
      while i < |pieces|
        invariant 0 <= i <= |pieces| == |ps|
        invariant board == SyncedBoard(ps[..i])
        invariant forall j :: 0 <= j < i ==> pieces[j] == SyncPiece(ps[j])
        invariant forall j :: i <= j < |ps| ==> pieces[j] == ps[j]
      {
        assert ps[..i + 1][..i] == ps[..i] && ps[..i + 1][i] == ps[i];
        if !pieces[i].captured {
          var position := pieces[i].pos;
          if IsValidPosition(position) {
            board := board[position := Value(pieces[i])];
          } else {
            pieces := pieces[i := pieces[i].(captured := true)];
          }
        }
        i := i + 1;
      }
      assert ps[..i] == ps;
      assert pieces == SyncedPieces(ps);
    }

    /** initialize_pieces: the roster emptied, the ids restarted, the rules
      re-initialised, the 32 pieces of the start layout added (Black's
      officers and pawns, then White's pawns and officers), White to move,
      no flags, the history cleared and the board synchronized. */
    method InitializePieces()
      modifies this, rules
      ensures State() == StartState() && moveHistory == [] && rules.moveHistory == []
    {
      pieces := [];
      nextPieceId := 1;
      rules.Reset();
      AddBlackPieces();
      AddWhitePieces();
      whiteTurn := true;
      checkmate := false;
      stalemate := false;
      moveHistory := [];
      SynchronizeBoardState();
      StartRosterOk();
      SyncedPiecesKeepsGoodRoster(StartPieces(32));
    }

    /** The black half of initialize_pieces: the officers on 91..98, then
      the pawns on 81..88. */
    method AddBlackPieces()
      requires pieces == [] && nextPieceId == 1
      modifies this`pieces, this`nextPieceId
      ensures pieces == StartPieces(16) && nextPieceId == 17
    {
      StartLayoutPawns();
      AddStartPiece(ROOK, BLACK, 91);
      AddStartPiece(KNIGHT, BLACK, 92);
      AddStartPiece(BISHOP, BLACK, 93);
      AddStartPiece(QUEEN, BLACK, 94);
      AddStartPiece(KING, BLACK, 95);
      AddStartPiece(BISHOP, BLACK, 96);
      AddStartPiece(KNIGHT, BLACK, 97);
      AddStartPiece(ROOK, BLACK, 98);
      var i := 81;
      while i < 89
        invariant 81 <= i <= 89 && |pieces| == i - 73 && pieces == StartPieces(|pieces|) && nextPieceId == |pieces| + 1
        modifies this`pieces, this`nextPieceId
      {
        AddStartPiece(PAWN, BLACK, i);
        i := i + 1;
      }
    }

    /** The white half of initialize_pieces: the pawns on 31..38, then the
      officers on 21..28. */
    method AddWhitePieces()
      requires pieces == StartPieces(16) && nextPieceId == 17
      modifies this`pieces, this`nextPieceId
      ensures pieces == StartPieces(32) && nextPieceId == 33
    {
      StartLayoutPawns();
      var i := 31;
      while i < 39
        invariant 31 <= i <= 39 && |pieces| == i - 15 && pieces == StartPieces(|pieces|) && nextPieceId == |pieces| + 1
        modifies this`pieces, this`nextPieceId
      {
        AddStartPiece(PAWN, WHITE, i);
        i := i + 1;
      }
      AddStartPiece(ROOK, WHITE, 21);
      AddStartPiece(KNIGHT, WHITE, 22);
      AddStartPiece(BISHOP, WHITE, 23);
      AddStartPiece(QUEEN, WHITE, 24);
      AddStartPiece(KING, WHITE, 25);
      AddStartPiece(BISHOP, WHITE, 26);
      AddStartPiece(KNIGHT, WHITE, 27);
      AddStartPiece(ROOK, WHITE, 28);
    }

    /** _add_piece as initialize_pieces uses it: with the first n entries
      of the start layout in place and (kind, colour, position) the next
      one, the first n + 1 are in place. */
    method AddStartPiece(kind: int, colour: int, position: int)
      requires |pieces| < |START_LAYOUT| && pieces == StartPieces(|pieces|) && nextPieceId == |pieces| + 1
      requires START_LAYOUT[|pieces|] == (kind, colour, position)
      modifies this`pieces, this`nextPieceId
      ensures |pieces| == old(|pieces|) + 1 && pieces == StartPieces(|pieces|) && nextPieceId == |pieces| + 1
    {
      StartPiecesGrow(|pieces|);
      AddPiece(kind, colour, position);
    }

    /** _add_piece: a new live, unmoved entry with the next id. */
    method AddPiece(kind: int, colour: int, position: int)
      modifies this`pieces, this`nextPieceId
      ensures pieces == old(pieces) + [MPiece(old(nextPieceId), kind, colour, position, false, false)]
      ensures nextPieceId == old(nextPieceId) + 1
      ensures IdsIncreasing(old(pieces), old(nextPieceId)) ==> IdsIncreasing(pieces, nextPieceId)
    {
      pieces := pieces + [MPiece(nextPieceId, kind, colour, position, false, false)];
      nextPieceId := nextPieceId + 1;
    }

    // -------------------------------------------------------------------
    // Attacks and check (MoveGenerator)

    /** The loop of get_attacked_squares for pawns, knights and kings: the
      playable squares among from + offsets, in order. */
    method ValidTargetsOf(from: int, offsets: seq<int>) returns (ts: seq<int>)
      ensures ts == ValidTargets(from, offsets)
    {
      ts := [];
      var k := 0;
      while k < |offsets|
        invariant 0 <= k <= |offsets|
        invariant ts + ValidTargets(from, offsets[k..]) == ValidTargets(from, offsets)
      {
        assert offsets[k..][1..] == offsets[k + 1..];
        var target := from + offsets[k];
        if IsValidPosition(target) {
          ts := ts + [target];
        }
        k := k + 1;
      }
    }

    /** get_attacked_squares: a pawn's two forward diagonals whatever stands
      there, the knight and king offsets, and for a slider every square of
      each ray up to and including its first piece of either colour. */
    method GetAttackedSquares(piece: MPiece) returns (attacked: seq<int>)
      ensures attacked == AttackedSquares(pieces, piece)
    {
      var current := piece.pos;
      attacked := [];
      if piece.kind == PAWN {
        var forward := 10 * piece.colour;
        attacked := ValidTargetsOf(current, [forward + 1, forward - 1]);
      } else if piece.kind == KNIGHT {
        attacked := ValidTargetsOf(current, KNIGHT_MOVES);
      } else if piece.kind == KING {
        attacked := ValidTargetsOf(current, DIRECTIONS);
      } else if piece.kind == ROOK {
        attacked := RayAttacks(current, ROOK_DIRECTIONS);
      } else if piece.kind == BISHOP {
        attacked := RayAttacks(current, BISHOP_DIRECTIONS);
      } else if piece.kind == QUEEN {
        attacked := RayAttacks(current, DIRECTIONS);
      }
    }

    /** The slider part of get_attacked_squares: along each direction every
      playable square, up to and including the first one holding a live
      piece. */
    method RayAttacks(current: int, dirs: seq<int>) returns (attacked: seq<int>)
      requires NonZero(dirs)
      ensures attacked == AttackRays(pieces, current, dirs)
    {
      attacked := [];
      var k := 0;
      while k < |dirs|
        invariant 0 <= k <= |dirs|
        invariant attacked + AttackRays(pieces, current, dirs[k..]) == AttackRays(pieces, current, dirs)
      {
        assert dirs[k..][1..] == dirs[k + 1..];
        var ray := RayWalk(current + dirs[k], dirs[k]);
        attacked := attacked + ray;
        k := k + 1;
      }
    }

    /** The walk of get_attacked_squares along one direction from `field`. */
    method RayWalk(field: int, d: int) returns (ray: seq<int>)
      requires d != 0
      ensures ray == AttackRay(pieces, field, d)
    {
      ray := [];
      var f := field;
      ghost var walk := AttackRay(pieces, field, d);
      while IsValidPosition(f)
        invariant ray + AttackRay(pieces, f, d) == walk
        decreases if d > 0 then 100 - f else f
      {
        var target := GetPieceAt(f);
        AttackRayStep(pieces, f, d);
        ghost var tail := if target.Some? then [] else AttackRay(pieces, f + d, d);
        assert ray + [f] + tail == walk;
        ray := ray + [f];
        if target.Some? {
          break;
        }
        f := f + d;
      }
    }

    /** is_square_attacked: some live piece of the attacking colour has the
      square among its attacked squares. */
    method IsSquareAttacked(position: int, attacker: int) returns (attacked: bool)
      ensures attacked == SquareAttacked(pieces, position, attacker)
    {
      var i := 0;
      while i < |pieces|
        invariant 0 <= i <= |pieces|
        invariant forall j :: 0 <= j < i && !pieces[j].captured && pieces[j].colour == attacker ==>
          position !in AttackedSquares(pieces, pieces[j])
      {
        if !pieces[i].captured && pieces[i].colour == attacker {
          var squares := GetAttackedSquares(pieces[i]);
          if position in squares {
            return true;
          }
        }
        i := i + 1;
      }
      return false;
    }

    /** is_king_in_check: without a live king of the colour, false;
      otherwise whether the opponent attacks the king's square. */
    method IsKingInCheck(colour: int) returns (inCheck: bool)
      ensures inCheck == KingInCheck(pieces, colour)
    {
      var king := GetKing(colour);
      if king.None? {
        return false;
      }
      var opponent := if colour == WHITE then BLACK else WHITE;
      inCheck := IsSquareAttacked(pieces[king.value].pos, opponent);
    }

    // -------------------------------------------------------------------
    // Snapshots, _apply_move_internal and is_move_legal

    /** take_snapshot: copies of roster, turn, flags and board. */
    method TakeSnapshot() returns (snap: Snapshot)
      ensures snap == Snapshot(pieces, whiteTurn, checkmate, stalemate, board)
    {
      snap := Snapshot(pieces, whiteTurn, checkmate, stalemate, board);
    }

    /** restore_snapshot: the five fields read back. */
    method RestoreSnapshot(snap: Snapshot)
      modifies this`pieces, this`whiteTurn, this`checkmate, this`stalemate, this`board
      ensures pieces == snap.pieces && whiteTurn == snap.whiteTurn && board == snap.board
      ensures checkmate == snap.checkmate && stalemate == snap.stalemate
    {
      pieces := snap.pieces;
      whiteTurn := snap.whiteTurn;
      checkmate := snap.checkmate;
      stalemate := snap.stalemate;
      board := snap.board;
    }

    /** _apply_move_internal: the mover (looked up by id) leaves its square,
      the live piece on a truthy capture_pos is flagged and its square
      cleared, the mover goes to to_pos with its value written there, and
      a truthy promotion_piece becomes its type.  Nothing happens when the
      id is unknown. */
    method ApplyMoveInternal(m: MMove)
      requires |board| == BOARD_SIZE && (forall i :: 0 <= i < |pieces| ==> InRange(pieces[i].pos)) && MoveOk(m)
      modifies this`board, this`pieces
      ensures board == ApplyToBoard(old(board), old(pieces), m) && pieces == ApplyToPieces(old(pieces), m)
    {
      var found := GetPieceById(m.pieceId);
      if found.None? {
        return;
      }
      var i := found.value;
      board := board[pieces[i].pos := EMPTY];
      if Truthy(m.capturePos) {
        var captured := GetPieceAt(m.capturePos.value);
        if captured.Some? {
          pieces := pieces[captured.value := pieces[captured.value].(captured := true)];
          board := board[m.capturePos.value := EMPTY];
        }
      }
      pieces := pieces[i := pieces[i].(pos := m.to)];
      board := board[m.to := Value(pieces[i])];
      if Truthy(m.promotionPiece) {
        pieces := pieces[i := pieces[i].(kind := m.promotionPiece.value)];
      }
    }

    /** is_move_legal: the mover must exist; the move is applied on a
      snapshot, the check query asked for the mover's colour, and the
      snapshot restored. */
    method IsMoveLegal(m: MMove) returns (legal: bool)
      requires |board| == BOARD_SIZE && (forall i :: 0 <= i < |pieces| ==> InRange(pieces[i].pos)) && MoveOk(m)
      modifies this`pieces, this`whiteTurn, this`checkmate, this`stalemate, this`board
      ensures legal == MoveLegal(old(pieces), m)
      ensures pieces == old(pieces) && board == old(board)
      ensures whiteTurn == old(whiteTurn) && checkmate == old(checkmate) && stalemate == old(stalemate)
    {
      var found := GetPieceById(m.pieceId);
      if found.None? {
        return false;
      }
      var colour := pieces[found.value].colour;
      var snap := TakeSnapshot();
      ApplyMoveInternal(m);
      var inCheck := IsKingInCheck(colour);
      RestoreSnapshot(snap);
      legal := !inCheck;
    }

    // -------------------------------------------------------------------
    // The piece generators (MoveGenerator)

    /** The loop over [QUEEN, ROOK, BISHOP, KNIGHT] of _generate_pawn_moves. */
    method PromotionMoves(pawn: MPiece, to: int, capturePos: Option<int>) returns (ms: seq<MMove>)
      ensures ms == Promotions(pawn, to, capturePos)
    {
      ms := [];
      var k := 0;
      while k < |PROMOTION_PIECES|
        invariant 0 <= k <= 4 && ms == Promotions(pawn, to, capturePos)[..k]
      {
        ms := ms + [CreateMove(pawn, to, capturePos, NoSpecial, Some(PROMOTION_PIECES[k]))];
        k := k + 1;
      }
    }

    /** The forward part of _generate_pawn_moves: the single step onto a
      square without a live piece (four promotions on the last rank), and
      from the start row the double step when that square is free too. */
    method PawnPushMoves(pawn: MPiece) returns (moves: seq<MMove>)
      ensures moves == PawnPushes(pieces, pawn)
    {
      moves := [];
      var forward := 10 * pawn.colour;
      var startRow := if pawn.colour == WHITE then 3 else 8;
      var oneStep := pawn.pos + forward;
      var blocker := GetPieceAt(oneStep);
      if blocker.None? {
        if IsPromotionRank(oneStep, pawn.colour) {
          moves := PromotionMoves(pawn, oneStep, None);
        } else {
          moves := [CreateMove(pawn, oneStep, None, NoSpecial, None)];
          if pawn.pos / 10 == startRow {
            var twoStep := pawn.pos + 2 * forward;
            var other := GetPieceAt(twoStep);
            if other.None? {
              moves := moves + [CreateMove(pawn, twoStep, None, DoublePawnPush, None)];
            }
          }
        }
      }
    }

    /** One pass of the capture_dirs loop of _generate_pawn_moves: nothing
      off the board, a capture of an enemy (four promotions on the last
      rank), else en passant onto the target. */
    method PawnCaptureMoves(pawn: MPiece, dir: int) returns (moves: seq<MMove>)
      ensures moves == PawnCapture(pieces, rules.enPassantTarget, pawn, dir)
    {
      var forward := 10 * pawn.colour;
      var target := pawn.pos + dir;
      if !IsValidPosition(target) {
        return [];
      }
      var t := GetPieceAt(target);
      if t.Some? && pieces[t.value].colour != pawn.colour {
        if IsPromotionRank(target, pawn.colour) {
          moves := PromotionMoves(pawn, target, Some(target));
        } else {
          moves := [CreateMove(pawn, target, Some(target), NoSpecial, None)];
        }
      } else if rules.enPassantTarget == Some(target) {
        moves := [CreateMove(pawn, target, Some(target - forward), EnPassantCapture, None)];
      } else {
        moves := [];
      }
    }

    /** _generate_pawn_moves: pushes, then the diagonals forward+E and
      forward+W. */
    method GeneratePawnMoves(pawn: MPiece) returns (moves: seq<MMove>)
      ensures moves == PawnMoves(pieces, rules.enPassantTarget, pawn)
    {
      moves := PawnPushMoves(pawn);
      var forward := 10 * pawn.colour;
      var captureDirs := [forward + 1, forward - 1];
      ghost var pushes := moves;
      ghost var left := PawnCapture(pieces, rules.enPassantTarget, pawn, captureDirs[0]);
      ghost var right := PawnCapture(pieces, rules.enPassantTarget, pawn, captureDirs[1]);
      var k := 0;
      while k < 2
        invariant 0 <= k <= 2
        invariant k == 0 ==> moves == pushes
        invariant k == 1 ==> moves == pushes + left
        invariant k == 2 ==> moves == pushes + left + right
      {
        var c := PawnCaptureMoves(pawn, captureDirs[k]);
        moves := moves + c;
        k := k + 1;
      }
    }

    /** One target of _generate_knight_moves / _generate_king_moves: free
      gives a quiet move, an enemy a capture on that square. */
    method JumpMove(piece: MPiece, target: int) returns (moves: seq<MMove>)
      ensures moves == Jump(pieces, piece, target)
    {
      moves := [];
      if IsValidPosition(target) {
        var t := GetPieceAt(target);
        if t.None? {
          moves := [CreateMove(piece, target, None, NoSpecial, None)];
        } else if pieces[t.value].colour != piece.colour {
          moves := [CreateMove(piece, target, Some(target), NoSpecial, None)];
        }
      }
    }

    /** The loop of _generate_knight_moves and _generate_king_moves over
      the offsets. */
    method JumpMoves(piece: MPiece, offsets: seq<int>) returns (moves: seq<MMove>)
      ensures moves == Jumps(pieces, piece, offsets)
    {
      moves := [];
      var k := 0;
      while k < |offsets|
        invariant 0 <= k <= |offsets|
        invariant moves + Jumps(pieces, piece, offsets[k..]) == Jumps(pieces, piece, offsets)
      {
        assert offsets[k..][1..] == offsets[k + 1..];
        var j := JumpMove(piece, piece.pos + offsets[k]);
        moves := moves + j;
        k := k + 1;
      }
    }

    /** _generate_knight_moves. */
    method GenerateKnightMoves(piece: MPiece) returns (moves: seq<MMove>)
      ensures moves == Jumps(pieces, piece, KNIGHT_MOVES)
    {
      moves := JumpMoves(piece, KNIGHT_MOVES);
    }

    /** _generate_king_moves: the eight neighbours; castling is generated
      apart. */
    method GenerateKingMoves(piece: MPiece) returns (moves: seq<MMove>)
      ensures moves == Jumps(pieces, piece, DIRECTIONS)
    {
      moves := JumpMoves(piece, DIRECTIONS);
    }

    /** The while loop of _generate_sliding_moves along one direction: quiet
      moves over free squares, a capture on the first enemy, and a stop on
      the first own piece or off the board. */
    method SlideMoves(piece: MPiece, field: int, d: int) returns (moves: seq<MMove>)
      requires d != 0
      ensures moves == SlideWalk(pieces, piece, field, d)
    {
      moves := [];
      var f := field;
      ghost var walk := SlideWalk(pieces, piece, field, d);
      while IsValidPosition(f)
        invariant moves + SlideWalk(pieces, piece, f, d) == walk
        decreases if d > 0 then 100 - f else f
      {
        var t := GetPieceAt(f);
        SlideWalkStep(pieces, piece, f, d);
        if t.None? {
          assert moves + [CreateMove(piece, f, None, NoSpecial, None)] + SlideWalk(pieces, piece, f + d, d) == walk;
          moves := moves + [CreateMove(piece, f, None, NoSpecial, None)];
        } else if pieces[t.value].colour != piece.colour {
          moves := moves + [CreateMove(piece, f, Some(f), NoSpecial, None)];
          break;
        } else {
          break;
        }
        f := f + d;
      }
    }

    /** _generate_sliding_moves: the walks along each direction in turn. */
    method GenerateSlidingMoves(piece: MPiece, dirs: seq<int>) returns (moves: seq<MMove>)
      requires NonZero(dirs)
      ensures moves == Slides(pieces, piece, dirs)
    {
      moves := [];
      var k := 0;
      while k < |dirs|
        invariant 0 <= k <= |dirs|
        invariant moves + Slides(pieces, piece, dirs[k..]) == Slides(pieces, piece, dirs)
      {
        assert dirs[k..][1..] == dirs[k + 1..];
        var walk := SlideMoves(piece, piece.pos + dirs[k], dirs[k]);
        moves := moves + walk;
        k := k + 1;
      }
    }

    /** generate_piece_moves: dispatch on the type; other types have no
      moves. */
    method GeneratePieceMoves(piece: MPiece) returns (moves: seq<MMove>)
      ensures moves == PieceMoves(pieces, rules.enPassantTarget, piece)
    {
      if piece.kind == PAWN {
        moves := GeneratePawnMoves(piece);
      } else if piece.kind == ROOK {
        moves := GenerateSlidingMoves(piece, ROOK_DIRECTIONS);
      } else if piece.kind == BISHOP {
        moves := GenerateSlidingMoves(piece, BISHOP_DIRECTIONS);
      } else if piece.kind == QUEEN {
        moves := GenerateSlidingMoves(piece, DIRECTIONS);
      } else if piece.kind == KNIGHT {
        moves := GenerateKnightMoves(piece);
      } else if piece.kind == KING {
        moves := GenerateKingMoves(piece);
      } else {
        moves := [];
      }
    }

    // -------------------------------------------------------------------
    // _generate_special_moves, generate_moves, generate_active_moves

    /** One castling block of _generate_special_moves after a positive
      validate_castling: the king on its start square and the rook on the
      rook's start square, both of the right type, give the move. */
    method CastlingMoveOf(colour: int, side: Side) returns (ms: seq<MMove>)
      ensures ms == CastlingMove(pieces, colour, side)
    {
      var (kf, kt, rf, rt) := CastlingPositions(colour, side);
      var king := GetPieceAt(kf);
      var rook := GetPieceAt(rf);
      if king.Some? && pieces[king.value].kind == KING && rook.Some? && pieces[rook.value].kind == ROOK {
        ms := [MMove(pieces[king.value].id, KING, colour, kf, kt, None, None, Castling, false, None,
                     Some(RookMove(pieces[rook.value].id, rf, rt)))];
      } else {
        ms := [];
      }
    }

    /** _generate_special_moves: king side, then queen side; each
      validate_castling may leave the king's trial placement on the board. */
    method GenerateSpecialMoves(colour: int) returns (moves: seq<MMove>)
      requires |board| == BOARD_SIZE
      modifies this`board, this`pieces
      ensures pieces == old(pieces)
      ensures (moves, board) == SpecialMoves(old(State()), colour)
    {
      ghost var s := State();
      moves := [];
      var okK := rules.ValidateCastling(this, colour, Kingside);
      if okK {
        moves := CastlingMoveOf(colour, Kingside);
      }
      ghost var ks := moves;
      ghost var b1 := board;
      assert State() == s.(board := b1);
      var okQ := rules.ValidateCastling(this, colour, Queenside);
      var qs := [];
      if okQ {
        qs := CastlingMoveOf(colour, Queenside);
      }
      moves := moves + qs;
      SpecialMovesParts(s, colour, okK, b1, ks, okQ, board, qs);
    }

    /** One pass of the first loop of generate_moves: the moves of a live
      piece of the colour, none for any other. */
    method OwnPieceMoves(piece: MPiece, colour: int) returns (own: seq<MMove>)
      ensures own == if !piece.captured && piece.colour == colour then PieceMoves(pieces, rules.enPassantTarget, piece) else []
    {
      own := [];
      if !piece.captured && piece.colour == colour {
        own := GeneratePieceMoves(piece);
      }
    }

    /** The first loop of generate_moves: the moves of every live piece of
      the colour, in roster order. */
    method CollectPieceMoves(colour: int) returns (all: seq<MMove>)
      ensures all == PseudoMoves(pieces, rules.enPassantTarget, colour, |pieces|)
    {
      all := [];
      ghost var ps, ep := pieces, rules.enPassantTarget;
      var i := 0;
      while i < |pieces|
        invariant 0 <= i <= |ps| == |pieces|
        invariant all == PseudoMoves(ps, ep, colour, i)
      {
        PseudoMovesStep(ps, ep, colour, i);
        var own := OwnPieceMoves(pieces[i], colour);
        all := all + own;
        i := i + 1;
      }
    }

    /** The list comprehension of generate_moves: the moves is_move_legal
      accepts, in order; every trial is undone. */
    method FilterLegal(all: seq<MMove>) returns (legal: seq<MMove>)
      requires |board| == BOARD_SIZE && (forall i :: 0 <= i < |pieces| ==> InRange(pieces[i].pos)) && MovesOk(all)
      modifies this`board, this`pieces, this`whiteTurn, this`checkmate, this`stalemate
      ensures legal == LegalFilter(old(pieces), all)
      ensures pieces == old(pieces) && board == old(board) && whiteTurn == old(whiteTurn)
      ensures checkmate == old(checkmate) && stalemate == old(stalemate)
    {
      legal := [];
      var j := 0;
      while j < |all|
        invariant 0 <= j <= |all|
        invariant pieces == old(pieces) && board == old(board) && whiteTurn == old(whiteTurn)
        invariant checkmate == old(checkmate) && stalemate == old(stalemate)
        invariant legal == LegalFilter(pieces, all[..j])
      {
        assert all[..j + 1][..j] == all[..j];
        var ok := IsMoveLegal(all[j]);
        if ok {
          legal := legal + [all[j]];
        }
        j := j + 1;
      }
      assert all[..j] == all;
    }

    /** generate_moves: the moves of every live piece of the colour in
      roster order, then the special moves, and of those the ones
      is_move_legal accepts. */
    method GenerateMoves(colour: int) returns (legal: seq<MMove>)
      requires EngineOk(State())
      modifies this`board, this`pieces, this`whiteTurn, this`checkmate, this`stalemate
      ensures legal == ModMoves.GenerateMoves(old(State()), colour).0
      ensures board == ModMoves.GenerateMoves(old(State()), colour).1
      ensures pieces == old(pieces) && whiteTurn == old(whiteTurn)
      ensures checkmate == old(checkmate) && stalemate == old(stalemate)
    {
      ghost var s := State();
      var all := CollectPieceMoves(colour);
      var special := GenerateSpecialMoves(colour);
      PseudoMovesOk(s.pieces, s.enPassantTarget, colour, |s.pieces|);
      SpecialMovesOk(s, colour);
      RosterOkInRange(s.pieces);
      legal := FilterLegal(all + special);
    }

    /** generate_active_moves: the legal moves with a truthy capture_pos, en
      passant, or a truthy promotion_piece, in order. */
    method GenerateActiveMoves(colour: int) returns (active: seq<MMove>)
      requires EngineOk(State())
      modifies this`board, this`pieces, this`whiteTurn, this`checkmate, this`stalemate
      ensures active == ActiveFilter(ModMoves.GenerateMoves(old(State()), colour).0)
      ensures board == ModMoves.GenerateMoves(old(State()), colour).1
      ensures pieces == old(pieces) && whiteTurn == old(whiteTurn)
      ensures checkmate == old(checkmate) && stalemate == old(stalemate)
    {
      var all := GenerateMoves(colour);
      active := [];
      var j := 0;
      while j < |all|
        invariant 0 <= j <= |all|
        invariant active == ActiveFilter(all[..j])
      {
        assert all[..j + 1][..j] == all[..j];
        var m := all[j];
        if Truthy(m.capturePos) || m.special == EnPassantCapture || Truthy(m.promotionPiece) {
          active := active + [m];
        }
        j := j + 1;
      }
      assert all[..j] == all;
    }

    // -------------------------------------------------------------------
    // _check_game_end and is_game_over

    /** _check_game_end: no legal move for the side to move is checkmate
      when its king is in check and stalemate otherwise; any legal move
      clears both flags. */
    method CheckGameEnd()
      requires EngineOk(State())
      modifies this`board, this`pieces, this`whiteTurn, this`checkmate, this`stalemate
      ensures checkmate == GameEnd(old(State())).0 && stalemate == GameEnd(old(State())).1
      ensures board == GameEnd(old(State())).2
      ensures pieces == old(pieces) && whiteTurn == old(whiteTurn)
    {
      ghost var s := State();
      var colour := if whiteTurn then WHITE else BLACK;
      var legal := GenerateMoves(colour);
      SetEndFlags(colour, |legal| == 0);
      GameEndParts(s, legal, board);
    }

    /** The branches of _check_game_end once the legal moves are known. */
    method SetEndFlags(colour: int, noMoves: bool)
      modifies this`checkmate, this`stalemate
      ensures checkmate == (noMoves && KingInCheck(pieces, colour))
      ensures stalemate == (noMoves && !KingInCheck(pieces, colour))
    {
      if noMoves {
        var inCheck := IsKingInCheck(colour);
        if inCheck {
          checkmate := true;
          stalemate := false;
        } else {
          checkmate := false;
          stalemate := true;
        }
      } else {
        checkmate := false;
        stalemate := false;
      }
    }

    /** is_game_over. */
    method IsGameOver() returns (over: bool)
      ensures over <==> checkmate || stalemate
    {
      over := checkmate || stalemate;
    }

    // -------------------------------------------------------------------
    // _save_state, _restore_state and undo_move

    /** _save_state: a copy of everything but the board pushed on
      move_history. */
    method SaveState()
      modifies this`moveHistory
      ensures moveHistory == old(moveHistory) + [ModPlay.SaveState(State())]
    {
      moveHistory := moveHistory + [Saved(pieces, whiteTurn, checkmate, stalemate, nextPieceId,
                                          rules.enPassantTarget, rules.castlingRights)];
    }

    /** Every saved field of h read back, the rules' fields included, then
      synchronize_board_state. */
    method LoadSaved(h: Saved)
      modifies this`board, this`pieces, this`whiteTurn, this`checkmate, this`stalemate, this`nextPieceId
      modifies rules`enPassantTarget, rules`castlingRights
      ensures State() == Restore(old(State()), h)
    {
      pieces := h.pieces;
      whiteTurn := h.whiteTurn;
      checkmate := h.checkmate;
      stalemate := h.stalemate;
      nextPieceId := h.nextPieceId;
      rules.enPassantTarget := h.enPassantTarget;
      rules.castlingRights := h.castlingRights;
      SynchronizeBoardState();
    }

    /** _restore_state: the top entry read back without popping it; nothing
      happens on an empty stack. */
    method RestoreState()
      modifies this`board, this`pieces, this`whiteTurn, this`checkmate, this`stalemate, this`nextPieceId
      modifies rules`enPassantTarget, rules`castlingRights
      ensures moveHistory == old(moveHistory)
      ensures State() == if |moveHistory| == 0 then old(State()) else Restore(old(State()), moveHistory[|moveHistory| - 1])
    {
      if |moveHistory| > 0 {
        LoadSaved(moveHistory[|moveHistory| - 1]);
      }
    }

    /** undo_move: false on an empty stack; otherwise the top entry is
      popped and read back. */
    method UndoMove() returns (ok: bool)
      modifies this`board, this`pieces, this`whiteTurn, this`checkmate, this`stalemate, this`nextPieceId
      modifies this`moveHistory, rules`enPassantTarget, rules`castlingRights
      ensures ok == Undo(old(Game())).0 && Game() == Undo(old(Game())).1
    {
      if |moveHistory| == 0 {
        return false;
      }
      var h := moveHistory[|moveHistory| - 1];
      moveHistory := moveHistory[..|moveHistory| - 1];
      LoadSaved(h);
      ok := true;
    }

    // -------------------------------------------------------------------
    // make_move and its paths

    /** The tail of every successful path of make_move:
      synchronize_board_state, the turn flipped, _check_game_end. */
    method FinishMove()
      requires |board| == BOARD_SIZE && TailReady(pieces, nextPieceId)
      modifies this`board, this`pieces, this`whiteTurn, this`checkmate, this`stalemate
      ensures State() == ModPlay.Finish(old(State()))
      ensures ColoursOk(pieces)
    {
      ghost var s := State();
      SynchronizeBoardState();
      whiteTurn := !whiteTurn;
      SyncRepairs(s.pieces, s.nextPieceId);
      ghost var s1 := State();
      assert s1 == Synchronize(s).(whiteTurn := !s.whiteTurn);
      CheckGameEnd();
    }

    /** The roster changes of _execute_castling_move. */
    method MoveCastlingRoster(m: MMove, i: nat, k: nat)
      requires i < |pieces| && k < |pieces| && m.rook.Some?
      modifies this`pieces
      ensures pieces == CastlingRoster(old(pieces), i, k, m)
    {
      pieces := pieces[i := pieces[i].(pos := m.to, hasMoved := true)];
      pieces := pieces[k := pieces[k].(pos := m.rook.value.rookTo, hasMoved := true)];
    }

    /** The roster changes of _execute_en_passant_move. */
    method MoveEnPassantRoster(m: MMove, i: nat)
      requires i < |pieces|
      modifies this`pieces
      ensures pieces == EnPassantRoster(old(pieces), i, m)
    {
      pieces := pieces[i := pieces[i].(pos := m.to)];
      if m.capturePos.Some? {
        var victim := GetPieceAt(m.capturePos.value);
        if victim.Some? {
          pieces := pieces[victim.value := pieces[victim.value].(captured := true)];
        }
      }
    }

    /** The live piece on to_pos flagged captured. */
    method CaptureOnTo(m: MMove)
      modifies this`pieces
      ensures pieces == CaptureOnTarget(old(pieces), m)
    {
      var victim := GetPieceAt(m.to);
      if victim.Some? {
        pieces := pieces[victim.value := pieces[victim.value].(captured := true)];
      }
    }

    /** _execute_castling_move: the rook looked up by id (false when there
      is none), king to to_pos and rook to rook_to, both marked as moved,
      the king's colour loses its castling rights, then the common tail. */
    method ExecuteCastlingMove(m: MMove, i: nat) returns (ok: bool)
      requires EngineOk(State()) && MoveOk(m) && m.rook.Some? && i < |pieces|
      modifies this`board, this`pieces, this`whiteTurn, this`checkmate, this`stalemate, rules`castlingRights
      ensures var rook := PieceById(old(pieces), m.rook.value.rookId);
        (ok, State()) ==
          if rook.None? then (false, old(State()))
          else (true, ModPlay.Finish(old(State()).(pieces := CastlingRoster(old(pieces), i, rook.value, m),
                                                    castlingRights := ModPlay.RevokeCastlingRights(old(rules.castlingRights), old(pieces)[i].colour))))
      ensures ColoursOk(pieces)
    {
      var rook := GetPieceById(m.rook.value.rookId);
      if rook.None? {
        return false;
      }
      ghost var s := State();
      var k := rook.value;
      CastlingRosterSound(pieces, i, k, m, nextPieceId);
      var colour := pieces[i].colour;
      MoveCastlingRoster(m, i, k);
      rules.RevokeCastlingRights(colour);
      assert State() == s.(pieces := CastlingRoster(s.pieces, i, k, m),
                           castlingRights := ModPlay.RevokeCastlingRights(s.castlingRights, colour));
      FinishMove();
      ok := true;
    }

    /** _execute_en_passant_move: the pawn to to_pos, the live piece then
      found on capture_pos flagged captured, then the common tail. */
    method ExecuteEnPassantMove(m: MMove, i: nat)
      requires EngineOk(State()) && MoveOk(m) && i < |pieces|
      modifies this`board, this`pieces, this`whiteTurn, this`checkmate, this`stalemate
      ensures State() == ModPlay.Finish(old(State()).(pieces := EnPassantRoster(old(pieces), i, m)))
      ensures ColoursOk(pieces)
    {
      ghost var s := State();
      EnPassantRosterSound(pieces, i, m, nextPieceId);
      MoveEnPassantRoster(m, i);
      assert State() == s.(pieces := EnPassantRoster(s.pieces, i, m));
      FinishMove();
    }

    /** _execute_promotion_move: the live piece on to_pos flagged captured,
      the pawn to to_pos with the promotion type, then the common tail. */
    method ExecutePromotionMove(m: MMove, i: nat)
      requires EngineOk(State()) && MoveOk(m) && i < |pieces| && m.promotionPiece.Some?
      modifies this`board, this`pieces, this`whiteTurn, this`checkmate, this`stalemate
      ensures State() == ModPlay.Finish(old(State()).(pieces := PromotionRoster(old(pieces), i, m)))
      ensures ColoursOk(pieces)
    {
      ghost var s := State();
      PromotionRosterSound(pieces, i, m, nextPieceId);
      CaptureOnTo(m);
      pieces := pieces[i := pieces[i].(pos := m.to, kind := m.promotionPiece.value)];
      assert State() == s.(pieces := PromotionRoster(s.pieces, i, m));
      FinishMove();
    }

    /** The normal path of make_move: the live piece on to_pos flagged
      captured, the piece to to_pos and marked as moved, process_move, then
      the common tail. */
    method ExecuteNormalMove(m: MMove, i: nat)
      requires EngineOk(State()) && MoveOk(m) && i < |pieces|
      modifies this`board, this`pieces, this`whiteTurn, this`checkmate, this`stalemate
      modifies rules`enPassantTarget, rules`castlingRights
      ensures State() == ModPlay.Finish(ModPlay.ProcessMove(old(State()).(pieces := NormalRoster(old(pieces), i, m)), m))
      ensures ColoursOk(pieces)
    {
      ghost var s := State();
      NormalRosterSound(pieces, i, m, nextPieceId);
      CaptureOnTo(m);
      pieces := pieces[i := pieces[i].(pos := m.to, hasMoved := true)];
      rules.ProcessMove(m);
      assert State() == ModPlay.ProcessMove(s.(pieces := NormalRoster(s.pieces, i, m)), m);
      FinishMove();
    }

    /** The part of make_move after the piece (entry i) was found:
      castling, en passant, a truthy promotion piece or the normal path. */
    method PlayPath(m: MMove, i: nat) returns (ok: bool)
      requires EngineOk(State()) && MoveOk(m) && i < |pieces|
      modifies this`board, this`pieces, this`whiteTurn, this`checkmate, this`stalemate
      modifies rules`enPassantTarget, rules`castlingRights
      ensures (ok, State()) == ModPlay.PlayPath(old(State()), m, i)
      ensures ColoursOk(pieces)
    {
      ghost var s := State();
      if m.special == Castling {
        assert PathOf(m) == CastlingPath;
        ok := ExecuteCastlingMove(m, i);
      } else if m.special == EnPassantCapture {
        assert PathOf(m) == EnPassantPath;
        ExecuteEnPassantMove(m, i);
        ok := true;
      } else if Truthy(m.promotionPiece) {
        assert PathOf(m) == PromotionPath;
        ExecutePromotionMove(m, i);
        ok := true;
      } else {
        assert PathOf(m) == NormalPath;
        ExecuteNormalMove(m, i);
        ok := true;
      }
    }

    /** make_move: the state is saved; without a piece on from_pos the saved
      entry is read back and the move fails; otherwise castling, en
      passant, a truthy promotion piece or the normal path is played. */
    method MakeMove(m: MMove) returns (ok: bool)
      requires EngineOk(State()) && MoveOk(m)
      modifies this`board, this`pieces, this`whiteTurn, this`checkmate, this`stalemate, this`nextPieceId
      modifies this`moveHistory, rules`enPassantTarget, rules`castlingRights
      ensures ok == ModPlay.MakeMove(old(Game()), m).0 && Game() == ModPlay.MakeMove(old(Game()), m).1
      ensures EngineOk(State())
    {
      ghost var g := Game();
      MakeMoveKeepsStateOk(g, m);
      SaveState();
      assert State() == g.state;
      var at := GetPieceAt(m.from);
      if at.None? {
        RestoreState();
        return false;
      }
      ok := PlayPath(m, at.value);
    }

    // -------------------------------------------------------------------
    // The position editor

    /** The live piece found on the square, if any, flagged captured. */
    method CaptureLiveAt(position: int)
      modifies this`pieces
      ensures pieces == CaptureAt(old(pieces), position)
    {
      var existing := GetPieceAt(position);
      if existing.Some? {
        pieces := pieces[existing.value := pieces[existing.value].(captured := true)];
      }
    }

    /** The live piece on the square flagged captured, then _add_piece. */
    method ReplaceOnSquare(kind: int, colour: int, position: int)
      modifies this`pieces, this`nextPieceId
      ensures pieces == CaptureAt(old(pieces), position) + [MPiece(old(nextPieceId), kind, colour, position, false, false)]
      ensures nextPieceId == old(nextPieceId) + 1
    {
      CaptureLiveAt(position);
      AddPiece(kind, colour, position);
    }

    /** editor_place_piece: false on a square that is not playable;
      otherwise the live piece found there is flagged captured, the new
      piece is added with the next id and the board synchronized. */
    method EditorPlacePiece(kind: int, colour: int, position: int) returns (ok: bool)
      modifies this`board, this`pieces, this`nextPieceId
      ensures (ok, State()) == EditorPlace(old(State()), kind, colour, position)
    {
      if !IsValidPosition(position) {
        return false;
      }
      ghost var s := State();
      ReplaceOnSquare(kind, colour, position);
      ghost var s1 := State();
      assert s1 == s.(pieces := CaptureAt(s.pieces, position) + [MPiece(s.nextPieceId, kind, colour, position, false, false)],
                      nextPieceId := s.nextPieceId + 1);
      SynchronizeBoardState();
      assert State() == Synchronize(s1);
      ok := true;
    }

    /** editor_remove_piece: the live piece on the square flagged captured
      and the board synchronized; false when there is none. */
    method EditorRemovePiece(position: int) returns (ok: bool)
      modifies this`board, this`pieces
      ensures (ok, State()) == EditorRemove(old(State()), position)
    {
      var found := GetPieceAt(position);
      if found.None? {
        return false;
      }
      CaptureLiveAt(position);
      SynchronizeBoardState();
      ok := true;
    }

    /** editor_clear_board: every entry flagged captured, then the board
      synchronized. */
    method EditorClearBoard()
      modifies this`board, this`pieces
      ensures State() == EditorClear(old(State()))
    {
      ghost var s := State();
      ghost var ps := pieces;
      var i := 0;
      while i < |pieces|
        modifies this`pieces
        invariant 0 <= i <= |pieces| == |ps|
        invariant forall j :: 0 <= j < i ==> pieces[j] == ps[j].(captured := true)
        invariant forall j :: i <= j < |ps| ==> pieces[j] == ps[j]
      {
        pieces := pieces[i := pieces[i].(captured := true)];
        i := i + 1;
      }
      assert pieces == seq(|ps|, j requires 0 <= j < |ps| => ps[j].(captured := true));
      ghost var s1 := State();
      assert s1 == s.(pieces := seq(|s.pieces|, j requires 0 <= j < |s.pieces| => s.pieces[j].(captured := true)));
      SynchronizeBoardState();
      assert State() == Synchronize(s1);
    }

    /** editor_standard_position: initialize_pieces. */
    method EditorStandardPosition()
      modifies this, rules
      ensures State() == StartState() && moveHistory == [] && rules.moveHistory == []
    {
      InitializePieces();
    }
  }
}
