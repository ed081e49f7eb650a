/** The monolithic engine's ChesstegEngine class (chessteg.py): the fields
    the source updates in place and the methods that loop over the board and
    the roster.  Each method is proved to compute the matching function of
    MonoModel or MonoEval on the state it reads, and to leave or change the
    state as that function says. */
module MonoEngine {
  import opened Common
  import opened BoardGen
  import JsModel
  import opened MonoModel
  import MonoEval
  import ModEval

  /** The dict copy_state returns. */
  datatype State = State(board: seq<int>, pieces: seq<Piece>, whiteTurn: bool, evaluation: int,
                         checkmate: bool, stalemate: bool)

  class ChesstegEngine {
    var board: seq<int>
    var pieces: seq<Piece>
    var whiteTurn: bool
    var evaluation: int
    var checkmate: bool
    var stalemate: bool
    var lastMove: Option<Move>
    var moveHistory: seq<Move>
    /** ai_settings['extended_evaluation'], the one AI setting the
        integer terms read. */
    var extendedEvaluation: bool

    /** board, pieces and white_turn. */
    function Current(): Position
      reads this`board, this`pieces, this`whiteTurn
    {
      Position(board, pieces, whiteTurn)
    }

    /** What execute_move and undo_move work on. */
    function CurrentGame(): Game
      reads this`board, this`pieces, this`whiteTurn, this`checkmate, this`stalemate,
        this`lastMove, this`moveHistory
    {
      Game(Current(), checkmate, stalemate, lastMove, moveHistory)
    }

    /** What copy_state copies. */
    function Snapshot(): State
      reads this`board, this`pieces, this`whiteTurn, this`evaluation, this`checkmate, this`stalemate
    {
      State(board, pieces, whiteTurn, evaluation, checkmate, stalemate)
    }

    predicate Valid()
      reads this
    {
      GameOk(CurrentGame())
    }

    /** __init__ with initialize_board and initialize_pieces: the 32 pieces
        on the empty mailbox, White to move, no flags, no history, extended
        evaluation on. */
    constructor ()
      ensures Valid()
      ensures pieces == JsModel.StartFiguren()
      ensures exists empty :: IsEmptyMailbox(empty) && CurrentGame() == StartGame(empty)
      ensures evaluation == 0 && extendedEvaluation
    {
      var empty := InitialiseMailbox();
      board := empty;
      pieces := [];
      whiteTurn := true;
      evaluation := 0;
      checkmate := false;
      stalemate := false;
      lastMove := None;
      moveHistory := [];
      extendedEvaluation := true;
      new;
      InitializePieces();
      StartPositionOk(empty);
      assert CurrentGame() == StartGame(empty);
    }

    /** add_piece: a live roster entry is appended and its code written
        onto its square. */
    method AddPiece(kind: int, colour: int, position: int)
      requires |board| == BOARD_SIZE && 0 <= position < BOARD_SIZE
      modifies this`board, this`pieces
      ensures pieces == old(pieces) + [Piece(kind, colour, position, false)]
      ensures board == old(board)[position := kind * colour]
    {
      pieces := pieces + [Piece(kind, colour, position, false)];
      board := board[position := kind * colour];
    }

    /** One add_piece call, with the board read as the start board `b0`
        with the roster so far placed on it. */
    method Placing(ghost b0: seq<int>, kind: int, colour: int, position: int)
      requires |b0| == BOARD_SIZE && 0 <= position < BOARD_SIZE
      requires board == JsModel.Aufstellen(b0, pieces)
      modifies this`board, this`pieces
      ensures pieces == old(pieces) + [Piece(kind, colour, position, false)]
      ensures board == JsModel.Aufstellen(b0, pieces)
    {
      JsModel.AufstellenAnhang(b0, pieces, Piece(kind, colour, position, false));
      AddPiece(kind, colour, position);
    }

    /** The add_piece calls for the kings and queens. */
    method AddKingsAndQueens(ghost b0: seq<int>)
      requires |b0| == BOARD_SIZE && board == JsModel.Aufstellen(b0, pieces)
      modifies this`board, this`pieces
      ensures pieces == old(pieces) + [Piece(KING, BLACK, 95, false), Piece(KING, WHITE, 25, false),
                                       Piece(QUEEN, BLACK, 94, false), Piece(QUEEN, WHITE, 24, false)]
      ensures board == JsModel.Aufstellen(b0, pieces)
    {
      Placing(b0, KING, BLACK, 95);
      Placing(b0, KING, WHITE, 25);
      Placing(b0, QUEEN, BLACK, 94);
      Placing(b0, QUEEN, WHITE, 24);
    }

    /** The add_piece calls for the rooks. */
    method AddRooks(ghost b0: seq<int>)
      requires |b0| == BOARD_SIZE && board == JsModel.Aufstellen(b0, pieces)
      modifies this`board, this`pieces
      ensures pieces == old(pieces) + [Piece(ROOK, BLACK, 91, false), Piece(ROOK, BLACK, 98, false),
                                       Piece(ROOK, WHITE, 21, false), Piece(ROOK, WHITE, 28, false)]
      ensures board == JsModel.Aufstellen(b0, pieces)
    {
      Placing(b0, ROOK, BLACK, 91);
      Placing(b0, ROOK, BLACK, 98);
      Placing(b0, ROOK, WHITE, 21);
      Placing(b0, ROOK, WHITE, 28);
    }

    /** The add_piece calls for the knights. */
    method AddKnights(ghost b0: seq<int>)
      requires |b0| == BOARD_SIZE && board == JsModel.Aufstellen(b0, pieces)
      modifies this`board, this`pieces
      ensures pieces == old(pieces) + [Piece(KNIGHT, BLACK, 92, false), Piece(KNIGHT, BLACK, 97, false),
                                       Piece(KNIGHT, WHITE, 22, false), Piece(KNIGHT, WHITE, 27, false)]
      ensures board == JsModel.Aufstellen(b0, pieces)
    {
      Placing(b0, KNIGHT, BLACK, 92);
      Placing(b0, KNIGHT, BLACK, 97);
      Placing(b0, KNIGHT, WHITE, 22);
      Placing(b0, KNIGHT, WHITE, 27);
    }

    /** The add_piece calls for the bishops. */
    method AddBishops(ghost b0: seq<int>)
      requires |b0| == BOARD_SIZE && board == JsModel.Aufstellen(b0, pieces)
      modifies this`board, this`pieces
      ensures pieces == old(pieces) + [Piece(BISHOP, BLACK, 93, false), Piece(BISHOP, BLACK, 96, false),
                                       Piece(BISHOP, WHITE, 23, false), Piece(BISHOP, WHITE, 26, false)]
      ensures board == JsModel.Aufstellen(b0, pieces)
    {
      Placing(b0, BISHOP, BLACK, 93);
      Placing(b0, BISHOP, BLACK, 96);
      Placing(b0, BISHOP, WHITE, 23);
      Placing(b0, BISHOP, WHITE, 26);
    }

    /** The sixteen add_piece calls for the pieces that are not pawns. */
    method AddOfficers()
      requires |board| == BOARD_SIZE
      modifies this`board, this`pieces
      ensures pieces == JsModel.OFFIZIERE
      ensures board == JsModel.Aufstellen(old(board), JsModel.OFFIZIERE)
    {
      ghost var b0 := board;
      pieces := [];
      AddKingsAndQueens(b0);
      AddRooks(b0);
      AddKnights(b0);
      AddBishops(b0);
    }

    /** One round of the pawn loop: the black pawn on 80 + i, then the
        white pawn on 30 + i. */
    method AddPawnPair(ghost b0: seq<int>, ghost before: seq<Piece>, i: int)
      requires |b0| == BOARD_SIZE && board == JsModel.Aufstellen(b0, pieces) && 1 <= i <= 8
      requires pieces == before + JsModel.Bauernpaare(i - 1)
      modifies this`board, this`pieces
      ensures pieces == before + JsModel.Bauernpaare(i)
      ensures board == JsModel.Aufstellen(b0, pieces)
    {
      Placing(b0, PAWN, BLACK, 80 + i);
      Placing(b0, PAWN, WHITE, 30 + i);
      assert pieces == before + JsModel.Bauernpaare(i - 1) +
        [Piece(PAWN, BLACK, 80 + i, false), Piece(PAWN, WHITE, 30 + i, false)];
    }

    /** The `for i in range(1, 9)` pawn loop. */
    method AddPawns(ghost b0: seq<int>)
      requires |b0| == BOARD_SIZE && board == JsModel.Aufstellen(b0, pieces)
      modifies this`board, this`pieces
      ensures pieces == old(pieces) + JsModel.Bauernpaare(JsModel.LINIEN)
      ensures board == JsModel.Aufstellen(b0, pieces)
    {
      var i := 1;
      while i <= 8
        invariant 1 <= i <= 9
        invariant pieces == old(pieces) + JsModel.Bauernpaare(i - 1)
        invariant board == JsModel.Aufstellen(b0, pieces)
      {
        AddPawnPair(b0, old(pieces), i);
        i := i + 1;
      }
    }

    /** initialize_pieces: the roster is rebuilt and each piece's code is
        written onto the board. */
    method InitializePieces()
      requires |board| == BOARD_SIZE
      modifies this`board, this`pieces
      ensures pieces == JsModel.StartFiguren()
      ensures board == JsModel.Aufstellen(old(board), JsModel.StartFiguren())
    {
      ghost var b0 := board;
      AddOfficers();
      AddPawns(b0);
      assert pieces == JsModel.StartFiguren();
    }

    // -------------------------------------------------------------------
    // Generators

    /** The inner `while` of generate_rook_moves and generate_bishop_moves:
        one direction from `start` until a DUMMY cell or a piece stops it. */
    method SlideDirection(piece: Piece, start: int, direction: int) returns (moves: seq<Move>)
      requires PositionOk(Current()) && JsModel.PieceOk(piece) && IsStep(direction) && 0 <= start < BOARD_SIZE
      ensures moves == MovesTo(Current(), piece, Walk(board, piece.colour, start, direction))
    {
      var s := Current();
      var b := board;
      moves := [];
      var field := start;
      ghost var walked: seq<Target> := [];
      while b[field] != DUMMY
        invariant 0 <= field < BOARD_SIZE
        invariant Walk(b, piece.colour, start, direction) == walked + Walk(b, piece.colour, field, direction)
        invariant moves == MovesTo(s, piece, walked)
        decreases if direction > 0 then BOARD_SIZE - field else field
      {
        if b[field] == EMPTY {
          SlideStepEmpty(s, piece, start, direction, walked, field);
          moves := moves + [CreateMove(s, piece, field, false)];
          walked := walked + [Target(field, false)];
        } else {
          SlideStepOccupied(s, piece, start, direction, walked, field);
          if IsOpponent(piece.colour, b[field]) {
            moves := moves + [CreateMove(s, piece, field, true)];
          }
          return;
        }
        field := field + direction;
      }
      assert walked + [] == walked;
    }

    /** The `for direction in directions` loop of the sliding generators. */
    method SlideMoves(piece: Piece, directions: seq<int>) returns (moves: seq<Move>)
      requires PositionOk(Current()) && JsModel.PieceOk(piece) && AllSteps(directions)
      ensures moves == MovesTo(Current(), piece, Slide(board, piece.colour, piece.pos, directions))
    {
      var s := Current();
      moves := [];
      var i := 0;
      while i < |directions|
        invariant 0 <= i <= |directions|
        invariant moves == MovesTo(s, piece, Slide(board, piece.colour, piece.pos, directions[..i]))
      {
        var direction := directions[i];
        assert IsStep(direction);
        StepInside(piece.pos, direction);
        var walked := SlideDirection(piece, piece.pos + direction, direction);
        MovesToAppend(s, piece, Slide(board, piece.colour, piece.pos, directions[..i]),
                      Walk(board, piece.colour, piece.pos + direction, direction));
        moves := moves + walked;
        assert directions[..i + 1][..i] == directions[..i];
        i := i + 1;
      }
      assert directions[..i] == directions;
    }

    /** The fixed-offset loop of generate_knight_moves and
        generate_king_moves. */
    method JumpMoves(piece: Piece, offsets: seq<int>) returns (moves: seq<Move>)
      requires PositionOk(Current()) && JsModel.PieceOk(piece) && AllJumps(offsets)
      ensures moves == MovesTo(Current(), piece, Jumps(board, piece.colour, piece.pos, offsets))
    {
      var s := Current();
      moves := [];
      var i := 0;
      while i < |offsets|
        invariant 0 <= i <= |offsets|
        invariant moves == MovesTo(s, piece, Jumps(board, piece.colour, piece.pos, offsets[..i]))
      {
        StepInside(piece.pos, offsets[i]);
        var field := piece.pos + offsets[i];
        ghost var before := Jumps(board, piece.colour, piece.pos, offsets[..i]);
        assert offsets[..i + 1][..i] == offsets[..i];
        if board[field] != DUMMY {
          if board[field] == EMPTY {
            MovesToAppend(s, piece, before, [Target(field, false)]);
            moves := moves + [CreateMove(s, piece, field, false)];
          } else if IsOpponent(piece.colour, board[field]) {
            MovesToAppend(s, piece, before, [Target(field, true)]);
            moves := moves + [CreateMove(s, piece, field, true)];
          }
        }
        i := i + 1;
      }
      assert offsets[..i] == offsets;
    }

    /** generate_rook_moves. */
    method GenerateRookMoves(piece: Piece) returns (moves: seq<Move>)
      requires PositionOk(Current()) && JsModel.PieceOk(piece)
      ensures moves == RookMoves(Current(), piece)
    {
      OffsetTablesAreSteps();
      moves := SlideMoves(piece, ROOK_DIRECTIONS);
    }

    /** generate_bishop_moves. */
    method GenerateBishopMoves(piece: Piece) returns (moves: seq<Move>)
      requires PositionOk(Current()) && JsModel.PieceOk(piece)
      ensures moves == BishopMoves(Current(), piece)
    {
      OffsetTablesAreSteps();
      moves := SlideMoves(piece, BISHOP_DIRECTIONS);
    }

    /** generate_queen_moves: the rook moves, then the bishop moves. */
    method GenerateQueenMoves(piece: Piece) returns (moves: seq<Move>)
      requires PositionOk(Current()) && JsModel.PieceOk(piece)
      ensures moves == QueenMoves(Current(), piece)
    {
      var straight := GenerateRookMoves(piece);
      var diagonal := GenerateBishopMoves(piece);
      moves := straight + diagonal;
    }

    /** generate_knight_moves. */
    method GenerateKnightMoves(piece: Piece) returns (moves: seq<Move>)
      requires PositionOk(Current()) && JsModel.PieceOk(piece)
      ensures moves == KnightMoves(Current(), piece)
    {
      OffsetTablesAreSteps();
      moves := JumpMoves(piece, KNIGHT_OFFSETS);
    }

    /** generate_king_moves: the eight neighbours, no castling. */
    method GenerateKingMoves(piece: Piece) returns (moves: seq<Move>)
      requires PositionOk(Current()) && JsModel.PieceOk(piece)
      ensures moves == KingMoves(Current(), piece)
    {
      OffsetTablesAreSteps();
      moves := JumpMoves(piece, KING_OFFSETS);
    }

    /** The pushes of generate_pawn_moves. */
    method PawnPushMoves(piece: Piece) returns (moves: seq<Move>)
      requires PositionOk(Current()) && JsModel.PieceOk(piece)
      ensures moves == PawnPushes(Current(), piece)
    {
      var s := Current();
      var forward := if piece.colour == WHITE then 10 else -10;
      var startRow := if piece.colour == WHITE then 3 else 8;
      var currentRow := piece.pos / 10;
      StepInside(piece.pos, forward);
      moves := [];
      var field := piece.pos + forward;
      if board[field] == EMPTY {
        moves := moves + [CreateMove(s, piece, field, false)];
        if currentRow == startRow {
          var doubleField := field + forward;
          if board[doubleField] == EMPTY {
            moves := moves + [CreateMove(s, piece, doubleField, false)];
          }
        }
      }
    }

    /** One pass of the `for side in [forward + 1, forward - 1]` loop. */
    method PawnCaptureMove(piece: Piece, side: int) returns (moves: seq<Move>)
      requires PositionOk(Current()) && JsModel.PieceOk(piece) && JsModel.IsDiagonal(side)
      ensures moves == PawnCapture(Current(), piece, side)
    {
      var s := Current();
      StepInside(piece.pos, side);
      var field := piece.pos + side;
      moves := [];
      if board[field] != DUMMY && board[field] != EMPTY {
        if IsOpponent(piece.colour, board[field]) {
          moves := [CreateMove(s, piece, field, true)];
        }
      }
    }

    /** generate_pawn_moves: the pushes, then the capture loop. */
    method GeneratePawnMoves(piece: Piece) returns (moves: seq<Move>)
      requires PositionOk(Current()) && JsModel.PieceOk(piece)
      ensures moves == PawnMoves(Current(), piece)
    {
      var s := Current();
      var forward := if piece.colour == WHITE then 10 else -10;
      moves := PawnPushMoves(piece);
      var sides := [forward + 1, forward - 1];
      for k := 0 to 2
        invariant moves == PawnPushes(s, piece)
                           + (if k > 0 then PawnCapture(s, piece, forward + 1) else [])
                           + (if k > 1 then PawnCapture(s, piece, forward - 1) else [])
      {
        var captures := PawnCaptureMove(piece, sides[k]);
        moves := moves + captures;
      }
    }

    /** generate_piece_moves: dispatch on the piece type; any other type has
        no moves. */
    method GeneratePieceMoves(piece: Piece) returns (moves: seq<Move>)
      requires PositionOk(Current()) && JsModel.PieceOk(piece)
      ensures moves == PieceMoves(Current(), piece)
    {
      if piece.kind == ROOK {
        moves := GenerateRookMoves(piece);
      } else if piece.kind == BISHOP {
        moves := GenerateBishopMoves(piece);
      } else if piece.kind == QUEEN {
        moves := GenerateQueenMoves(piece);
      } else if piece.kind == KNIGHT {
        moves := GenerateKnightMoves(piece);
      } else if piece.kind == KING {
        moves := GenerateKingMoves(piece);
      } else if piece.kind == PAWN {
        moves := GeneratePawnMoves(piece);
      } else {
        moves := [];
      }
    }

    // -------------------------------------------------------------------
    // Check, legality, the legal move list and the game status

    /** The inner loop of is_king_in_check over one piece's moves. */
    static method HitsSquare(moves: seq<Move>, square: int) returns (hit: bool)
      ensures hit == (square in ToSquares(moves))
    {
      var j := 0;
      while j < |moves|
        invariant 0 <= j <= |moves|
        invariant square !in ToSquares(moves[..j])
      {
        if moves[j].to == square {
          assert ToSquares(moves)[j] == square;
          return true;
        }
        assert ToSquares(moves[..j + 1]) == ToSquares(moves[..j]) + [moves[j].to];
        j := j + 1;
      }
      assert moves[..j] == moves;
      return false;
    }

    /** is_king_in_check: false without a live king of `colour`; otherwise
        whether a live enemy piece has a generated move onto the king's
        square. */
    method IsKingInCheck(colour: int) returns (inCheck: bool)
      requires PositionOk(Current())
      ensures inCheck == InCheck(Current(), colour)
    {
      var s := Current();
      var king := JsModel.KoenigIndex(pieces, colour);
      if king.None? {
        return false;
      }
      var kingPos := s.pieces[king.value].pos;
      ghost var test := AttackTest(s, colour, kingPos);
      var i := 0;
      while i < |s.pieces|
        invariant 0 <= i <= |s.pieces|
        invariant !AnyAmong(s.pieces, test, i)
      {
        var hit := PieceAttacks(s.pieces[i], colour, kingPos);
        assert hit == test(s.pieces[i]);
        if hit {
          AnyAmongFound(s.pieces, test, i + 1, |s.pieces|);
          InCheckScan(s, colour, king.value);
          return true;
        }
        i := i + 1;
      }
      InCheckScan(s, colour, king.value);
      return false;
    }

    /** One round of is_king_in_check's loop over the pieces: a live piece
        of the other colour whose moves reach the king's square. */
    method PieceAttacks(piece: Piece, colour: int, kingPos: int) returns (hit: bool)
      requires PositionOk(Current()) && JsModel.PieceOk(piece)
      ensures hit == Attacks(Current(), piece, colour, kingPos)
    {
      var opponentColour := -colour;
      if piece.captured || piece.colour != opponentColour {
        return false;
      }
      var attackMoves := GeneratePieceMoves(piece);
      hit := HitsSquare(attackMoves, kingPos);
    }

    /** The block that is_move_legal, execute_move and execute_temp_move
        each repeat: the origin is cleared, the target gets the mover's
        code, the first live piece of the move's colour on the origin moves
        and, for a capture, the first live enemy on the target is flagged.
        The result says whether a mover was found. */
    method PlayOnBoard(m: Move) returns (found: bool)
      requires PositionOk(Current()) && MoveOk(m)
      modifies this`board, this`pieces
      ensures found == JsModel.ZiehendeFigur(old(pieces), m.from, m.colour).Some?
      ensures Current() == TempMoved(old(Current()), m)
    {
      ghost var after := TempMoved(Current(), m);
      board := board[m.from := EMPTY];
      board := board[m.to := m.kind * m.colour];
      var piece := JsModel.ZiehendeFigur(pieces, m.from, m.colour);
      if piece.Some? {
        var i := piece.value;
        pieces := pieces[i := pieces[i].(pos := m.to)];
        if m.captured.Some? {
          var captured := JsModel.GegnerAuf(pieces, m.to, m.colour);
          if captured.Some? {
            var j := captured.value;
            pieces := pieces[j := pieces[j].(captured := true)];
          }
        }
        assert Current() == after;
        return true;
      }
      return false;
    }

    /** execute_temp_move: the move is played on the board and the roster;
        the side to move is kept. */
    method ExecuteTempMove(m: Move)
      requires PositionOk(Current()) && MoveOk(m)
      modifies this`board, this`pieces
      ensures Current() == TempMoved(old(Current()), m)
    {
      var _ := PlayOnBoard(m);
    }

    /** The four quick rejections of is_move_legal. */
    method PassesQuickTests(m: Move) returns (pass: bool)
      requires PositionOk(Current()) && MoveOk(m)
      ensures pass == (m.from != m.to && board[m.from] != EMPTY && board[m.from] != DUMMY &&
                       TurnAllows(Current(), m) && TargetAllows(Current(), m))
    {
      if m.from == m.to {
        return false;
      }
      if board[m.from] == EMPTY || board[m.from] == DUMMY {
        return false;
      }
      var pieceValue := board[m.from];
      var isWhiteTurn := whiteTurn;
      if (isWhiteTurn && pieceValue < 0) || (!isWhiteTurn && pieceValue > 0) {
        return false;
      }
      var targetValue := board[m.to];
      if targetValue != EMPTY && targetValue != DUMMY {
        if (isWhiteTurn && targetValue > 0) || (!isWhiteTurn && targetValue < 0) {
          return false;
        }
      }
      return true;
    }

    /** is_move_legal: the quick rejections, then the move is played, the
        mover's king is tested for check and board and pieces are put
        back. */
    method IsMoveLegal(m: Move) returns (legal: bool)
      requires PositionOk(Current()) && MoveOk(m)
      modifies this`board, this`pieces
      ensures legal == MoveLegal(old(Current()), m)
      ensures board == old(board) && pieces == old(pieces)
    {
      var pass := PassesQuickTests(m);
      if !pass {
        return false;
      }
      var originalBoard := board;
      var originalPieces := pieces;
      var found := PlayOnBoard(m);
      if found {
        var inCheck := IsKingInCheck(m.colour);
        board := originalBoard;
        pieces := originalPieces;
        return !inCheck;
      }
      board := originalBoard;
      pieces := originalPieces;
      return false;
    }

    /** generate_moves: the moves of every live piece of `colour`, in roster
        order, filtered by is_move_legal. */
    method GenerateMoves(colour: int) returns (legal: seq<Move>)
      requires PositionOk(Current())
      modifies this`board, this`pieces
      ensures legal == LegalMoves(old(Current()), colour)
      ensures board == old(board) && pieces == old(pieces)
    {
      var s := Current();
      var allMoves := CollectMoves(colour);
      PseudoMovesOk(s, colour);
      legal := FilterLegal(allMoves);
    }

    /** The first half of generate_moves: all_moves. */
    method CollectMoves(colour: int) returns (allMoves: seq<Move>)
      requires PositionOk(Current())
      ensures allMoves == PseudoMoves(Current(), colour, |pieces|)
    {
      var s := Current();
      allMoves := [];
      var i := 0;
      while i < |pieces|
        invariant 0 <= i <= |s.pieces|
        invariant allMoves == PseudoMoves(s, colour, i)
      {
        PseudoMovesStep(s, colour, i);
        var pieceMoves := CollectOwnMoves(pieces[i], colour);
        allMoves := allMoves + pieceMoves;
        i := i + 1;
      }
    }

    /** One round of the collecting loop: the moves of a live piece of
        `colour`, none for any other entry. */
    method CollectOwnMoves(piece: Piece, colour: int) returns (pieceMoves: seq<Move>)
      requires PositionOk(Current()) && JsModel.PieceOk(piece)
      ensures pieceMoves == OwnMoves(Current(), colour, piece)
    {
      if !piece.captured && piece.colour == colour {
        pieceMoves := GeneratePieceMoves(piece);
      } else {
        pieceMoves := [];
      }
    }

    /** The second half of generate_moves: the list comprehension over
        is_move_legal. */
    method FilterLegal(allMoves: seq<Move>) returns (legal: seq<Move>)
      requires PositionOk(Current()) && forall m :: m in allMoves ==> MoveOk(m)
      modifies this`board, this`pieces
      ensures legal == LegalFilter(old(Current()), allMoves)
      ensures board == old(board) && pieces == old(pieces)
    {
      var s := Current();
      legal := [];
      var i := 0;
      while i < |allMoves|
        invariant 0 <= i <= |allMoves|
        invariant Current() == s
        invariant forall m :: m in allMoves[..i] ==> MoveOk(m)
        invariant legal == LegalFilter(s, allMoves[..i])
      {
        var m := allMoves[i];
        assert m in allMoves;
        var ok := IsMoveLegal(m);
        assert allMoves[..i + 1] == allMoves[..i] + [m];
        assert allMoves[..i + 1][..i] == allMoves[..i];
        if ok {
          legal := legal + [m];
        }
        i := i + 1;
      }
      assert allMoves[..i] == allMoves;
    }

    /** generate_capture_moves: the legal moves that carry a victim. */
    method GenerateCaptureMoves(colour: int) returns (captures: seq<Move>)
      requires PositionOk(Current())
      modifies this`board, this`pieces
      ensures captures == CaptureMoves(old(Current()), colour)
      ensures board == old(board) && pieces == old(pieces)
    {
      var allMoves := GenerateMoves(colour);
      captures := [];
      var i := 0;
      while i < |allMoves|
        invariant 0 <= i <= |allMoves|
        invariant captures == CaptureFilter(allMoves[..i])
      {
        assert allMoves[..i + 1][..i] == allMoves[..i];
        if allMoves[i].captured.Some? {
          captures := captures + [allMoves[i]];
        }
        i := i + 1;
      }
      assert allMoves[..i] == allMoves;
    }

    /** is_checkmate. */
    method IsCheckmate(colour: int) returns (mate: bool)
      requires PositionOk(Current())
      modifies this`board, this`pieces
      ensures mate == (InCheck(old(Current()), colour) && |LegalMoves(old(Current()), colour)| == 0)
      ensures board == old(board) && pieces == old(pieces)
    {
      var inCheck := IsKingInCheck(colour);
      if inCheck {
        var legalMoves := GenerateMoves(colour);
        return |legalMoves| == 0;
      }
      return false;
    }

    /** is_stalemate. */
    method IsStalemate(colour: int) returns (stale: bool)
      requires PositionOk(Current())
      modifies this`board, this`pieces
      ensures stale == (!InCheck(old(Current()), colour) && |LegalMoves(old(Current()), colour)| == 0)
      ensures board == old(board) && pieces == old(pieces)
    {
      var inCheck := IsKingInCheck(colour);
      if !inCheck {
        var legalMoves := GenerateMoves(colour);
        return |legalMoves| == 0;
      }
      return false;
    }

    /** check_game_status: sets the two flags for the side to move. */
    method CheckGameStatus()
      requires PositionOk(Current())
      modifies this`board, this`pieces, this`checkmate, this`stalemate
      ensures checkmate == Status(old(Current())).0 && stalemate == Status(old(Current())).1
      ensures board == old(board) && pieces == old(pieces)
    {
      var currentColour := if whiteTurn then WHITE else BLACK;
      var mate := IsCheckmate(currentColour);
      if mate {
        checkmate := true;
        stalemate := false;
      } else {
        var stale := IsStalemate(currentColour);
        if stale {
          stalemate := true;
          checkmate := false;
        } else {
          checkmate := false;
          stalemate := false;
        }
      }
    }

    // -------------------------------------------------------------------
    // Executing and undoing a move, state copies

    /** execute_move: an illegal move is refused and nothing changes;
        otherwise the move is played, the turn passes, the move is recorded
        and the flags are recomputed. */
    method ExecuteMove(m: Move) returns (ok: bool)
      requires Valid() && MoveOk(m)
      modifies this`board, this`pieces, this`whiteTurn, this`checkmate, this`stalemate,
        this`lastMove, this`moveHistory
      ensures ok == MonoModel.ExecuteMove(old(CurrentGame()), m).0
      ensures CurrentGame() == MonoModel.ExecuteMove(old(CurrentGame()), m).1
    {
      var legal := IsMoveLegal(m);
      if !legal {
        return false;
      }
      PlayLegalMove(m);
      return true;
    }

    /** The part of execute_move after the legality test. */
    method PlayLegalMove(m: Move)
      requires Valid() && MoveOk(m) && MoveLegal(Current(), m)
      modifies this`board, this`pieces, this`whiteTurn, this`checkmate, this`stalemate,
        this`lastMove, this`moveHistory
      ensures CurrentGame() == MonoModel.ExecuteMove(old(CurrentGame()), m).1
    {
      ghost var g := CurrentGame();
      var _ := PlayOnBoard(m);
      whiteTurn := !whiteTurn;
      lastMove := Some(m);
      moveHistory := moveHistory + [m];
      assert Current() == TempMoved(g.position, m).(whiteTurn := !g.position.whiteTurn);
      CheckGameStatus();
    }

    /** undo_move: nothing without a last move; otherwise the two cells
        are written back, the mover returns to the origin, a captured victim
        comes back to life on the target, the turn passes back and
        last_move and the flags are cleared. */
    method UndoMove() returns (ok: bool)
      requires Valid()
      modifies this`board, this`pieces, this`whiteTurn, this`checkmate, this`stalemate, this`lastMove
      ensures ok == MonoModel.UndoMove(old(CurrentGame())).0
      ensures CurrentGame() == MonoModel.UndoMove(old(CurrentGame())).1
    {
      if lastMove.None? {
        return false;
      }
      var m := lastMove.value;
      board := board[m.from := m.kind * m.colour];
      board := board[m.to := if m.captured.Some? then m.captured.value.kind * m.captured.value.colour else EMPTY];
      ghost var start := pieces;
      var piece := JsModel.ZiehendeFigur(pieces, m.to, m.colour);
      if piece.Some? {
        var i := piece.value;
        pieces := pieces[i := pieces[i].(pos := m.from)];
      }
      if m.captured.Some? {
        var captured := Revivable(pieces, m.captured.value);
        if captured.Some? {
          var j := captured.value;
          pieces := pieces[j := pieces[j].(captured := false, pos := m.to)];
        }
      }
      assert pieces == RestoredPieces(start, m);
      whiteTurn := !whiteTurn;
      lastMove := None;
      checkmate := false;
      stalemate := false;
      return true;
    }

    /** copy_state: board, pieces, white_turn, evaluation and the two
        flags, as values. */
    method CopyState() returns (state: State)
      ensures state == Snapshot()
      ensures state.board == board && state.pieces == pieces && state.whiteTurn == whiteTurn
    {
      state := State(board, pieces, whiteTurn, evaluation, checkmate, stalemate);
    }

    /** restore_state: the six copied fields come back; last_move and
        move_history are not part of the copy and stay as they are. */
    method RestoreState(state: State)
      modifies this`board, this`pieces, this`whiteTurn, this`evaluation, this`checkmate, this`stalemate
      ensures Snapshot() == state
    {
      board := state.board;
      pieces := state.pieces;
      whiteTurn := state.whiteTurn;
      evaluation := state.evaluation;
      checkmate := state.checkmate;
      stalemate := state.stalemate;
    }

    // -------------------------------------------------------------------
    // Integer evaluation terms

    /** calculate_position_value with position_to_coordinates. */
    method CalculatePositionValue(piece: Piece) returns (value: int)
      requires IsKind(piece.kind)
      ensures value == MonoEval.PositionValue(extendedEvaluation, piece)
    {
      if !extendedEvaluation {
        return 0;
      }
      var boardRow, boardCol := piece.pos / 10, piece.pos % 10;
      var row := if piece.colour == WHITE then boardRow - 2 else 7 - (boardRow - 2);
      var col := boardCol - 1;
      row := if row > 7 then 7 else if row < 0 then 0 else row;
      col := if col > 7 then 7 else if col < 0 then 0 else col;
      return ModEval.PositionTable(piece.kind)[row][col];
    }

    /** is_piece_developed. */
    static method IsPieceDeveloped(piece: Piece) returns (developed: bool)
      ensures developed == MonoEval.IsDeveloped(piece)
    {
      var startRow := if piece.colour == WHITE then 2 else 9;
      return piece.pos / 10 != startRow;
    }

    /** calculate_development_advantage: 20 for each live developed White
        knight or bishop, -20 for each one of another colour. */
    method CalculateDevelopmentAdvantage() returns (advantage: int)
      ensures advantage == MonoEval.DevelopmentAdvantage(pieces)
    {
      advantage := 0;
      for i := 0 to |pieces|
        invariant advantage == MonoEval.DevelopmentAdvantage(pieces[..i])
      {
        assert pieces[..i + 1][..i] == pieces[..i];
        var piece := pieces[i];
        if !piece.captured && (piece.kind == KNIGHT || piece.kind == BISHOP) {
          var developed := IsPieceDeveloped(piece);
          if developed {
            advantage := advantage + if piece.colour == WHITE then 20 else -20;
          }
        }
      }
      assert pieces[..|pieces|] == pieces;
    }

    /** calculate_pawn_structure as written: the dict of pawns per
        (file, colour), then a flat penalty per doubled key with the
        endswith test on the key text. */
    method CalculatePawnStructure() returns (evaluation: int)
      ensures evaluation == MonoEval.PawnStructureAsWritten(pieces)
    {
      var pawnsPerFile := CountPawnsPerFile();
      evaluation := DoubledPawnPenalties(pawnsPerFile);
    }

    /** The first loop of calculate_pawn_structure: pawns_per_file. */
    method CountPawnsPerFile() returns (pawnsPerFile: seq<ModEval.Bucket>)
      ensures pawnsPerFile == ModEval.Buckets(MonoEval.AsMPieces(pieces))
    {
      var ps := pieces;
      ghost var ms := MonoEval.AsMPieces(ps);
      pawnsPerFile := [];
      for i := 0 to |ps|
        invariant pawnsPerFile == ModEval.Buckets(ms[..i])
      {
        assert ms[..i + 1][..i] == ms[..i];
        var piece := ps[i];
        if !piece.captured && piece.kind == PAWN {
          pawnsPerFile := ModEval.Bump(pawnsPerFile, piece.pos % 10, piece.colour);
        }
      }
      assert ms[..|ps|] == ms;
    }

    /** The second loop of calculate_pawn_structure: a flat -20 or 20 for
        each key with more than one pawn. */
    static method DoubledPawnPenalties(pawnsPerFile: seq<ModEval.Bucket>) returns (evaluation: int)
      ensures evaluation == ModEval.BucketsTotal(pawnsPerFile, MonoEval.BucketPenaltyAsWritten)
    {
      evaluation := 0;
      for k := 0 to |pawnsPerFile|
        invariant evaluation == ModEval.BucketsTotal(pawnsPerFile[..k], MonoEval.BucketPenaltyAsWritten)
      {
        assert pawnsPerFile[..k + 1][..k] == pawnsPerFile[..k];
        var b := pawnsPerFile[k];
        var penalty := 0;
        if b.count > 1 {
          var colour := if ModEval.EndsWithOne(ModEval.KeyText(b.file, b.colour)) then WHITE else BLACK;
          penalty := if colour == WHITE then -20 else 20;
        }
        assert penalty == MonoEval.BucketPenaltyAsWritten(b);
        evaluation := evaluation + penalty;
      }
      assert pawnsPerFile[..|pawnsPerFile|] == pawnsPerFile;
    }
  }
}
