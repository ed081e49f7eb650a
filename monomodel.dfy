/** The monolithic engine (chessteg.py) as functions of its state: the move
    generators (no castling, no en passant, no promotion), the check test,
    is_move_legal, generate_moves, check_game_status and the state changes
    of execute_temp_move, execute_move and undo_move.  The class in
    MonoEngine runs the source's loops and is proved to compute exactly
    these functions.  chessteg.py builds the same roster entries in the same
    order as the JS engine, so the roster predicates, the roster searches
    and the start layout are JsModel's. */
module MonoModel {
  import opened Common
  import opened BoardGen
  import JsModel

  /** A move dict of create_move: from_pos, to_pos, type, color and the
      roster entry it captures, if any. */
  datatype Move = Move(from: int, to: int, kind: int, colour: int, captured: Option<Piece>)

  /** board, pieces and white_turn. */
  datatype Position = Position(board: seq<int>, pieces: seq<Piece>, whiteTurn: bool)

  /** What execute_move and undo_move change: the position, the checkmate and
      stalemate flags, last_move and move_history. */
  datatype Game = Game(position: Position, checkmate: bool, stalemate: bool,
                       lastMove: Option<Move>, history: seq<Move>)

  predicate PositionOk(s: Position)
  {
    Bordered(s.board) && JsModel.RosterOk(s.pieces)
  }

  /** The moves the engine handles name two playable squares. */
  predicate MoveOk(m: Move)
  {
    IsValidPosition(m.from) && IsValidPosition(m.to)
  }

  predicate GameOk(g: Game)
  {
    PositionOk(g.position) && (g.lastMove.Some? ==> MoveOk(g.lastMove.value))
  }

  function SideToMove(s: Position): int
  {
    if s.whiteTurn then WHITE else BLACK
  }

  /** Every live piece of `colour` has its code on its square. */
  predicate CodesOnSquaresOf(s: Position, colour: int)
    requires PositionOk(s)
  {
    forall i :: 0 <= i < |s.pieces| && !s.pieces[i].captured && s.pieces[i].colour == colour ==>
      s.board[s.pieces[i].pos] == s.pieces[i].kind * colour
  }

  // ---------------------------------------------------------------------
  // Move generation

  /** find_captured_piece: the first live piece on `position` whose colour
      is not the side to move. */
  function CapturedPiece(s: Position, position: int): (r: Option<Piece>)
    ensures r.Some? ==> (r.value in s.pieces && r.value.pos == position && !r.value.captured &&
                         r.value.colour == -SideToMove(s))
    ensures r.None? ==> forall p :: p in s.pieces && p.pos == position && !p.captured ==> p.colour != -SideToMove(s)
  {
    match FindIndex(s.pieces, (p: Piece) => p.pos == position && !p.captured &&
      ((s.whiteTurn && p.colour == BLACK) || (!s.whiteTurn && p.colour == WHITE)))
    case None => None
    case Some(i) => Some(s.pieces[i])
  }

  /** create_move: the victim is looked up only for a capture. */
  function CreateMove(s: Position, piece: Piece, target: int, isCapture: bool): Move
  {
    Move(piece.pos, target, piece.kind, piece.colour, if isCapture then CapturedPiece(s, target) else None)
  }

  /** The moves for a list of targets, in order. */
  function MovesTo(s: Position, piece: Piece, ts: seq<Target>): (ms: seq<Move>)
    ensures |ms| == |ts|
    ensures forall i :: 0 <= i < |ts| ==> ms[i] == CreateMove(s, piece, ts[i].sq, ts[i].capture)
  {
    seq(|ts|, i requires 0 <= i < |ts| => CreateMove(s, piece, ts[i].sq, ts[i].capture))
  }

  lemma MovesToAppend(s: Position, piece: Piece, a: seq<Target>, b: seq<Target>)
    ensures MovesTo(s, piece, a + b) == MovesTo(s, piece, a) + MovesTo(s, piece, b)
  {
  }

  function RookMoves(s: Position, piece: Piece): seq<Move>
    requires PositionOk(s) && JsModel.PieceOk(piece)
  {
    OffsetTablesAreSteps();
    MovesTo(s, piece, Slide(s.board, piece.colour, piece.pos, ROOK_DIRECTIONS))
  }

  function BishopMoves(s: Position, piece: Piece): seq<Move>
    requires PositionOk(s) && JsModel.PieceOk(piece)
  {
    OffsetTablesAreSteps();
    MovesTo(s, piece, Slide(s.board, piece.colour, piece.pos, BISHOP_DIRECTIONS))
  }

  function QueenMoves(s: Position, piece: Piece): seq<Move>
    requires PositionOk(s) && JsModel.PieceOk(piece)
  {
    RookMoves(s, piece) + BishopMoves(s, piece)
  }

  function KnightMoves(s: Position, piece: Piece): seq<Move>
    requires PositionOk(s) && JsModel.PieceOk(piece)
  {
    OffsetTablesAreSteps();
    MovesTo(s, piece, Jumps(s.board, piece.colour, piece.pos, KNIGHT_OFFSETS))
  }

  /** The eight neighbours; chessteg.py has no castling. */
  function KingMoves(s: Position, piece: Piece): seq<Move>
    requires PositionOk(s) && JsModel.PieceOk(piece)
  {
    OffsetTablesAreSteps();
    MovesTo(s, piece, Jumps(s.board, piece.colour, piece.pos, KING_OFFSETS))
  }

  /** The single push onto an EMPTY cell and, from the start row, the double
      push; a pawn on the last row just has no push (the cell ahead is
      DUMMY), there is no promotion. */
  function PawnPushes(s: Position, piece: Piece): seq<Move>
    requires PositionOk(s) && JsModel.PieceOk(piece)
  {
    var fwd := JsModel.Vorwaerts(piece.colour);
    StepInside(piece.pos, fwd);
    var field := piece.pos + fwd;
    if s.board[field] != EMPTY then []
    else
      [CreateMove(s, piece, field, false)] +
      (if Row(piece.pos) == JsModel.Startreihe(piece.colour) && s.board[field + fwd] == EMPTY
       then [CreateMove(s, piece, field + fwd, false)] else [])
  }

  /** One diagonal: a capture onto an enemy. */
  function PawnCapture(s: Position, piece: Piece, side: int): seq<Move>
    requires PositionOk(s) && JsModel.PieceOk(piece) && JsModel.IsDiagonal(side)
  {
    StepInside(piece.pos, side);
    var field := piece.pos + side;
    if s.board[field] != DUMMY && s.board[field] != EMPTY && IsOpponent(piece.colour, s.board[field])
    then [CreateMove(s, piece, field, true)] else []
  }

  /** generate_pawn_moves: the pushes, then the captures for forward + 1
      and forward - 1; no en passant. */
  function PawnMoves(s: Position, piece: Piece): seq<Move>
    requires PositionOk(s) && JsModel.PieceOk(piece)
  {
    var fwd := JsModel.Vorwaerts(piece.colour);
    PawnPushes(s, piece) + PawnCapture(s, piece, fwd + 1) + PawnCapture(s, piece, fwd - 1)
  }

  /** generate_piece_moves. */
  function PieceMoves(s: Position, piece: Piece): seq<Move>
    requires PositionOk(s) && JsModel.PieceOk(piece)
  {
    if piece.kind == ROOK then RookMoves(s, piece)
    else if piece.kind == BISHOP then BishopMoves(s, piece)
    else if piece.kind == QUEEN then QueenMoves(s, piece)
    else if piece.kind == KNIGHT then KnightMoves(s, piece)
    else if piece.kind == KING then KingMoves(s, piece)
    else if piece.kind == PAWN then PawnMoves(s, piece)
    else []
  }

  /** The moves of one roster entry if it is a live piece of `colour`. */
  function OwnMoves(s: Position, colour: int, p: Piece): seq<Move>
    requires PositionOk(s) && JsModel.PieceOk(p)
  {
    if !p.captured && p.colour == colour then PieceMoves(s, p) else []
  }

  /** The moves of the live pieces of `colour` among the first n roster
      entries (all_moves of generate_moves). */
  function PseudoMoves(s: Position, colour: int, n: nat): seq<Move>
    requires PositionOk(s) && n <= |s.pieces|
  {
    if n == 0 then [] else PseudoMoves(s, colour, n - 1) + OwnMoves(s, colour, s.pieces[n - 1])
  }

  function ToSquares(ms: seq<Move>): (r: seq<int>)
    ensures |r| == |ms| && forall i :: 0 <= i < |ms| ==> r[i] == ms[i].to
  {
    seq(|ms|, i requires 0 <= i < |ms| => ms[i].to)
  }

  /** One EMPTY cell of a sliding walk: its quiet move is appended and the
      walk goes on from the next cell. */
  lemma SlideStepEmpty(s: Position, piece: Piece, start: int, d: int, walked: seq<Target>, field: int)
    requires Bordered(s.board) && IsStep(d) && 0 <= start < BOARD_SIZE && 0 <= field < BOARD_SIZE
    requires s.board[field] == EMPTY
    requires Walk(s.board, piece.colour, start, d) == walked + Walk(s.board, piece.colour, field, d)
    ensures 0 <= field + d < BOARD_SIZE
    ensures Walk(s.board, piece.colour, start, d) ==
      (walked + [Target(field, false)]) + Walk(s.board, piece.colour, field + d, d)
    ensures MovesTo(s, piece, walked + [Target(field, false)]) ==
      MovesTo(s, piece, walked) + [CreateMove(s, piece, field, false)]
  {
    WalkOverEmpty(s.board, piece.colour, field, d);
    MovesToAppend(s, piece, walked, [Target(field, false)]);
  }

  /** An occupied cell ends a sliding walk: the moves are complete once an
      enemy there has been taken in. */
  lemma SlideStepOccupied(s: Position, piece: Piece, start: int, d: int, walked: seq<Target>, field: int)
    requires Bordered(s.board) && IsStep(d) && 0 <= start < BOARD_SIZE && 0 <= field < BOARD_SIZE
    requires s.board[field] != EMPTY && s.board[field] != DUMMY
    requires Walk(s.board, piece.colour, start, d) == walked + Walk(s.board, piece.colour, field, d)
    ensures MovesTo(s, piece, Walk(s.board, piece.colour, start, d)) ==
      MovesTo(s, piece, walked) +
      (if IsOpponent(piece.colour, s.board[field]) then [CreateMove(s, piece, field, true)] else [])
  {
    WalkEndsOnPiece(s.board, piece.colour, field, d);
    if IsOpponent(piece.colour, s.board[field]) {
      MovesToAppend(s, piece, walked, [Target(field, true)]);
    } else {
      assert walked + [] == walked;
    }
  }

  /** One round of generate_moves' collecting loop. */
  lemma PseudoMovesStep(s: Position, colour: int, i: nat)
    requires PositionOk(s) && i < |s.pieces|
    ensures JsModel.PieceOk(s.pieces[i])
    ensures PseudoMoves(s, colour, i + 1) == PseudoMoves(s, colour, i) + OwnMoves(s, colour, s.pieces[i])
  {
  }

  // ---------------------------------------------------------------------
  // What the generated moves are

  /** What a generated move means: it moves `piece` from its square to a
      playable square that is EMPTY (a quiet move) or holds an enemy (a
      capture, which carries find_captured_piece's answer). */
  predicate MoveSound(s: Position, piece: Piece, m: Move)
    requires PositionOk(s)
  {
    MoveOk(m) && m.from == piece.pos && m.kind == piece.kind && m.colour == piece.colour &&
    (s.board[m.to] == EMPTY || IsOpponent(piece.colour, s.board[m.to])) &&
    (m.captured.Some? ==> IsOpponent(piece.colour, s.board[m.to]) && m.captured == CapturedPiece(s, m.to))
  }

  lemma MovesToSound(s: Position, piece: Piece, ts: seq<Target>)
    requires PositionOk(s) && JsModel.PieceOk(piece)
    requires forall t :: t in ts ==> TargetSound(s.board, piece.colour, t)
    ensures forall m :: m in MovesTo(s, piece, ts) ==> MoveSound(s, piece, m)
  {
    forall m | m in MovesTo(s, piece, ts) ensures MoveSound(s, piece, m) {
      var i :| 0 <= i < |ts| && MovesTo(s, piece, ts)[i] == m;
      assert ts[i] in ts;
    }
  }

  lemma PawnPushesSound(s: Position, piece: Piece)
    requires PositionOk(s) && JsModel.PieceOk(piece)
    ensures forall m :: m in PawnPushes(s, piece) ==> MoveSound(s, piece, m)
  {
    var fwd := JsModel.Vorwaerts(piece.colour);
    StepInside(piece.pos, fwd);
    var field := piece.pos + fwd;
    if s.board[field] == EMPTY {
      assert IsValidPosition(field);
      StepInside(field, fwd);
    }
  }

  lemma PawnCaptureSound(s: Position, piece: Piece, side: int)
    requires PositionOk(s) && JsModel.PieceOk(piece) && JsModel.IsDiagonal(side)
    ensures forall m :: m in PawnCapture(s, piece, side) ==> MoveSound(s, piece, m)
  {
    StepInside(piece.pos, side);
  }

  lemma PawnMovesSound(s: Position, piece: Piece)
    requires PositionOk(s) && JsModel.PieceOk(piece)
    ensures forall m :: m in PawnMoves(s, piece) ==> MoveSound(s, piece, m)
  {
    var fwd := JsModel.Vorwaerts(piece.colour);
    PawnPushesSound(s, piece);
    PawnCaptureSound(s, piece, fwd + 1);
    PawnCaptureSound(s, piece, fwd - 1);
  }

  /** Every move generate_piece_moves returns is sound. */
  lemma PieceMovesSound(s: Position, piece: Piece)
    requires PositionOk(s) && JsModel.PieceOk(piece)
    ensures forall m :: m in PieceMoves(s, piece) ==> MoveSound(s, piece, m)
  {
    OffsetTablesAreSteps();
    var b, c, p := s.board, piece.colour, piece.pos;
    if piece.kind == ROOK || piece.kind == QUEEN {
      SlideSound(b, c, p, ROOK_DIRECTIONS);
      MovesToSound(s, piece, Slide(b, c, p, ROOK_DIRECTIONS));
    }
    if piece.kind == BISHOP || piece.kind == QUEEN {
      SlideSound(b, c, p, BISHOP_DIRECTIONS);
      MovesToSound(s, piece, Slide(b, c, p, BISHOP_DIRECTIONS));
    }
    if piece.kind == KNIGHT {
      JumpsSound(b, c, p, KNIGHT_OFFSETS);
      MovesToSound(s, piece, Jumps(b, c, p, KNIGHT_OFFSETS));
    }
    if piece.kind == KING {
      JumpsSound(b, c, p, KING_OFFSETS);
      MovesToSound(s, piece, Jumps(b, c, p, KING_OFFSETS));
    }
    if piece.kind == PAWN {
      PawnMovesSound(s, piece);
    }
  }

  /** A pawn moves one row forward, two rows forward from its start row over
      an EMPTY cell, or one row forward and one column aside onto an enemy. */
  lemma PawnMovesShape(s: Position, piece: Piece)
    requires PositionOk(s) && JsModel.PieceOk(piece)
    ensures forall m :: m in PawnMoves(s, piece) ==>
      var fwd := JsModel.Vorwaerts(piece.colour);
      (m.to == piece.pos + fwd && s.board[m.to] == EMPTY && m.captured.None?) ||
      (m.to == piece.pos + 2 * fwd && Row(piece.pos) == JsModel.Startreihe(piece.colour) &&
       s.board[piece.pos + fwd] == EMPTY && s.board[m.to] == EMPTY && m.captured.None?) ||
      ((m.to == piece.pos + fwd + 1 || m.to == piece.pos + fwd - 1) && IsOpponent(piece.colour, s.board[m.to]))
  {
    var fwd := JsModel.Vorwaerts(piece.colour);
    PawnPushesShape(s, piece);
    PawnCaptureShape(s, piece, fwd + 1);
    PawnCaptureShape(s, piece, fwd - 1);
  }

  lemma PawnPushesShape(s: Position, piece: Piece)
    requires PositionOk(s) && JsModel.PieceOk(piece)
    ensures forall m :: m in PawnPushes(s, piece) ==>
      var fwd := JsModel.Vorwaerts(piece.colour);
      (m.to == piece.pos + fwd && s.board[m.to] == EMPTY && m.captured.None?) ||
      (m.to == piece.pos + 2 * fwd && Row(piece.pos) == JsModel.Startreihe(piece.colour) &&
       s.board[piece.pos + fwd] == EMPTY && s.board[m.to] == EMPTY && m.captured.None?)
  {
  }

  lemma PawnCaptureShape(s: Position, piece: Piece, side: int)
    requires PositionOk(s) && JsModel.PieceOk(piece) && JsModel.IsDiagonal(side)
    ensures forall m :: m in PawnCapture(s, piece, side) ==>
      m.to == piece.pos + side && IsOpponent(piece.colour, s.board[m.to])
  {
  }

  /** A king steps to one of its eight neighbours. */
  lemma KingMovesShape(s: Position, piece: Piece)
    requires PositionOk(s) && JsModel.PieceOk(piece) && piece.kind == KING
    ensures forall m :: m in PieceMoves(s, piece) ==> m.to - piece.pos in KING_OFFSETS
  {
    OffsetTablesAreSteps();
    var ts := Jumps(s.board, piece.colour, piece.pos, KING_OFFSETS);
    JumpsSound(s.board, piece.colour, piece.pos, KING_OFFSETS);
    forall m | m in PieceMoves(s, piece) ensures m.to - piece.pos in KING_OFFSETS {
      var i :| 0 <= i < |ts| && MovesTo(s, piece, ts)[i] == m;
      assert ts[i] in ts;
      var k :| 0 <= k < |KING_OFFSETS| && ts[i].sq == piece.pos + KING_OFFSETS[k];
    }
  }

  /** Every move in all_moves is sound and was made for a live piece of
      `colour` among the first n roster entries. */
  lemma {:induction false} PseudoMovesSound(s: Position, colour: int, n: nat)
    requires PositionOk(s) && n <= |s.pieces|
    ensures forall m :: m in PseudoMoves(s, colour, n) ==>
      exists k :: 0 <= k < n && !s.pieces[k].captured && s.pieces[k].colour == colour &&
        MoveSound(s, s.pieces[k], m)
  {
    if n > 0 {
      PseudoMovesSound(s, colour, n - 1);
      var p := s.pieces[n - 1];
      if !p.captured && p.colour == colour {
        PieceMovesSound(s, p);
      }
      forall m | m in PseudoMoves(s, colour, n)
        ensures exists k :: (0 <= k < n && !s.pieces[k].captured && s.pieces[k].colour == colour &&
                             MoveSound(s, s.pieces[k], m))
      {
        if m in PseudoMoves(s, colour, n - 1) {
          var k :| 0 <= k < n - 1 && !s.pieces[k].captured && s.pieces[k].colour == colour &&
            MoveSound(s, s.pieces[k], m);
        } else {
          assert m in OwnMoves(s, colour, p);
        }
      }
    }
  }

  // ---------------------------------------------------------------------
  // Check

  /** A live piece of the colour opposing `colour` with a generated move onto
      `square` (pawn pushes included, as in the source). */
  predicate Attacks(s: Position, p: Piece, colour: int, square: int)
    requires PositionOk(s) && JsModel.PieceOk(p)
  {
    !p.captured && p.colour == -colour && square in ToSquares(PieceMoves(s, p))
  }

  /** is_king_in_check: false without a live king of `colour`; otherwise
      some roster entry attacks the king's square. */
  predicate InCheck(s: Position, colour: int)
    requires PositionOk(s)
  {
    match JsModel.KoenigIndex(s.pieces, colour)
    case None => false
    case Some(k) =>
      exists i :: 0 <= i < |s.pieces| && Attacks(s, s.pieces[i], colour, s.pieces[k].pos)
  }

  /** The scan is_king_in_check performs: with the king found at index `k`,
      the side is in check exactly when the scan over the whole roster finds
      an attacker of the king's square. */
  lemma InCheckScan(s: Position, colour: int, k: nat)
    requires PositionOk(s) && JsModel.KoenigIndex(s.pieces, colour) == Some(k)
    ensures k < |s.pieces|
    ensures InCheck(s, colour) <==> AnyAmong(s.pieces, AttackTest(s, colour, s.pieces[k].pos), |s.pieces|)
  {
    var test := AttackTest(s, colour, s.pieces[k].pos);
    AnyAmongMeaning(s.pieces, test, |s.pieces|);
    if InCheck(s, colour) {
      var i :| 0 <= i < |s.pieces| && Attacks(s, s.pieces[i], colour, s.pieces[k].pos);
      assert test(s.pieces[i]);
    }
  }

  /** The test is_king_in_check applies to each roster entry. */
  function AttackTest(s: Position, colour: int, square: int): Piece -> bool
    requires PositionOk(s)
  {
    p => JsModel.PieceOk(p) && Attacks(s, p, colour, square)
  }

  // ---------------------------------------------------------------------
  // Playing a move

  /** The roster after a move: the first live piece of the move's colour on
      the origin moves to the target, and then (for a move carrying a victim)
      the first live enemy on the target is flagged as captured. */
  function MovedPieces(ps: seq<Piece>, m: Move): (r: seq<Piece>)
    requires JsModel.RosterOk(ps) && MoveOk(m)
    ensures JsModel.RosterOk(r) && |r| == |ps|
    ensures JsModel.ZiehendeFigur(ps, m.from, m.colour).None? ==> r == ps
    ensures forall i :: 0 <= i < |ps| ==> r[i].kind == ps[i].kind && r[i].colour == ps[i].colour
  {
    match JsModel.ZiehendeFigur(ps, m.from, m.colour)
    case None => ps
    case Some(i) =>
      var ps1 := ps[i := ps[i].(pos := m.to)];
      if m.captured.Some? then
        (match JsModel.GegnerAuf(ps1, m.to, m.colour)
         case None => ps1
         case Some(j) => ps1[j := ps1[j].(captured := true)])
      else ps1
  }

  /** execute_temp_move: the origin cell is cleared, the target gets the
      mover's code and the roster changes as MovedPieces says.  The side to
      move is kept. */
  function TempMoved(s: Position, m: Move): (r: Position)
    requires PositionOk(s) && MoveOk(m)
    ensures PositionOk(r) && r.whiteTurn == s.whiteTurn
    ensures r.board == s.board[m.from := EMPTY][m.to := m.kind * m.colour]
    ensures r.pieces == MovedPieces(s.pieces, m)
  {
    Position(s.board[m.from := EMPTY][m.to := m.kind * m.colour], MovedPieces(s.pieces, m), s.whiteTurn)
  }

  /** The turn test of is_move_legal: the piece code on the origin does not
      belong to the side that is not to move. */
  predicate TurnAllows(s: Position, m: Move)
    requires PositionOk(s) && MoveOk(m)
  {
    !((s.whiteTurn && s.board[m.from] < 0) || (!s.whiteTurn && s.board[m.from] > 0))
  }

  /** The target test of is_move_legal: the target does not hold a piece of
      the side to move. */
  predicate TargetAllows(s: Position, m: Move)
    requires PositionOk(s) && MoveOk(m)
  {
    var t := s.board[m.to];
    !(t != EMPTY && t != DUMMY && ((s.whiteTurn && t > 0) || (!s.whiteTurn && t < 0)))
  }

  /** is_move_legal: four quick rejections, then the move is played on a copy
      and it is legal if a mover was found and its king is not in check. */
  predicate MoveLegal(s: Position, m: Move)
    requires PositionOk(s) && MoveOk(m)
  {
    if m.from == m.to then false
    else if s.board[m.from] == EMPTY || s.board[m.from] == DUMMY then false
    else if !TurnAllows(s, m) then false
    else if !TargetAllows(s, m) then false
    else JsModel.ZiehendeFigur(s.pieces, m.from, m.colour).Some? && !InCheck(TempMoved(s, m), m.colour)
  }

  /** What is_move_legal accepts: a real move of a piece of the side to move,
      not onto a piece of its own, made by a live piece of the move's colour
      that stands on the origin, and not leaving its own king in check. */
  lemma MoveLegalMeaning(s: Position, m: Move)
    requires PositionOk(s) && MoveOk(m)
    ensures MoveLegal(s, m) <==>
      m.from != m.to && s.board[m.from] != EMPTY && s.board[m.from] != DUMMY &&
      s.board[m.from] * SideToMove(s) > 0 &&
      (s.board[m.to] == EMPTY || s.board[m.to] == DUMMY || s.board[m.to] * SideToMove(s) < 0) &&
      (exists i :: 0 <= i < |s.pieces| && s.pieces[i].pos == m.from && !s.pieces[i].captured &&
         s.pieces[i].colour == m.colour) &&
      !InCheck(TempMoved(s, m), m.colour)
  {
    var f := (p: Piece) => p.pos == m.from && !p.captured && p.colour == m.colour;
    if JsModel.ZiehendeFigur(s.pieces, m.from, m.colour).None? {
      assert forall i :: 0 <= i < |s.pieces| ==> !f(s.pieces[i]);
    }
  }

  /** Where the pieces of `colour` stand on their codes, a move is legal
      only for the side to move. */
  lemma LegalMoveIsSideToMove(s: Position, m: Move)
    requires PositionOk(s) && MoveOk(m) && CodesOnSquaresOf(s, m.colour) && MoveLegal(s, m)
    ensures m.colour == SideToMove(s)
  {
    var i := JsModel.ZiehendeFigur(s.pieces, m.from, m.colour).value;
    var p := s.pieces[i];
    assert s.board[m.from] == p.kind * m.colour;
    PieceCodeIsNotSpecial(p.kind, p.colour);
  }

  /** `[move for move in all_moves if self.is_move_legal(move)]`. */
  function LegalFilter(s: Position, ms: seq<Move>): (r: seq<Move>)
    requires PositionOk(s) && forall m :: m in ms ==> MoveOk(m)
    ensures |r| <= |ms|
  {
    if ms == [] then []
    else
      var last := ms[|ms| - 1];
      LegalFilter(s, ms[..|ms| - 1]) + (if MoveLegal(s, last) then [last] else [])
  }

  lemma PseudoMovesOk(s: Position, colour: int)
    requires PositionOk(s)
    ensures forall m :: m in PseudoMoves(s, colour, |s.pieces|) ==> MoveOk(m)
  {
    PseudoMovesSound(s, colour, |s.pieces|);
  }

  /** generate_moves. */
  function LegalMoves(s: Position, colour: int): seq<Move>
    requires PositionOk(s)
  {
    PseudoMovesOk(s, colour);
    LegalFilter(s, PseudoMoves(s, colour, |s.pieces|))
  }

  lemma {:induction false} LegalFilterCharacterised(s: Position, ms: seq<Move>)
    requires PositionOk(s) && forall m :: m in ms ==> MoveOk(m)
    ensures forall m :: m in LegalFilter(s, ms) <==> m in ms && MoveLegal(s, m)
  {
    if ms != [] {
      LegalFilterCharacterised(s, ms[..|ms| - 1]);
      assert ms == ms[..|ms| - 1] + [ms[|ms| - 1]];
    }
  }

  /** generate_moves returns exactly the generated moves that pass
      is_move_legal. */
  lemma LegalMovesCharacterised(s: Position, colour: int, m: Move)
    requires PositionOk(s)
    ensures m in LegalMoves(s, colour) <==>
      m in PseudoMoves(s, colour, |s.pieces|) && MoveOk(m) && MoveLegal(s, m)
  {
    PseudoMovesOk(s, colour);
    LegalFilterCharacterised(s, PseudoMoves(s, colour, |s.pieces|));
  }

  /** generate_capture_moves: the legal moves that carry a victim, in
      order. */
  function CaptureFilter(ms: seq<Move>): (r: seq<Move>)
    ensures |r| <= |ms|
  {
    if ms == [] then []
    else
      var last := ms[|ms| - 1];
      CaptureFilter(ms[..|ms| - 1]) + (if last.captured.Some? then [last] else [])
  }

  function CaptureMoves(s: Position, colour: int): seq<Move>
    requires PositionOk(s)
  {
    CaptureFilter(LegalMoves(s, colour))
  }

  lemma {:induction false} CaptureFilterCharacterised(ms: seq<Move>)
    ensures forall m :: m in CaptureFilter(ms) <==> m in ms && m.captured.Some?
  {
    if ms != [] {
      CaptureFilterCharacterised(ms[..|ms| - 1]);
      assert ms == ms[..|ms| - 1] + [ms[|ms| - 1]];
    }
  }

  /** generate_capture_moves returns exactly the legal moves of `colour`
      that capture a piece. */
  lemma CaptureMovesCharacterised(s: Position, colour: int, m: Move)
    requires PositionOk(s)
    ensures m in CaptureMoves(s, colour) <==> m in LegalMoves(s, colour) && m.captured.Some?
  {
    CaptureFilterCharacterised(LegalMoves(s, colour));
  }

  /** is_move_legal reads white_turn, not the colour generate_moves was asked
      for: the side that is not to move has no legal moves at all. */
  lemma WaitingSideHasNoMoves(s: Position, c: int)
    requires PositionOk(s) && c == -SideToMove(s) && CodesOnSquaresOf(s, c)
    ensures LegalMoves(s, c) == []
  {
    if LegalMoves(s, c) != [] {
      var m := LegalMoves(s, c)[0];
      LegalMovesCharacterised(s, c, m);
      PseudoMovesSound(s, c, |s.pieces|);
      LegalMoveIsSideToMove(s, m);
    }
  }

  /** check_game_status for the side to move: (checkmate, stalemate). */
  function Status(s: Position): (bool, bool)
    requires PositionOk(s)
  {
    var c := SideToMove(s);
    var mate := InCheck(s, c) && |LegalMoves(s, c)| == 0;
    var stale := !InCheck(s, c) && |LegalMoves(s, c)| == 0;
    if mate then (true, false) else if stale then (false, true) else (false, false)
  }

  /** Checkmate is check with no legal move, stalemate is no check and no
      legal move, and the two never hold together. */
  lemma StatusMeaning(s: Position)
    requires PositionOk(s)
    ensures var r := Status(s);
      var c := SideToMove(s);
      !(r.0 && r.1) &&
      (r.0 <==> InCheck(s, c) && LegalMoves(s, c) == []) &&
      (r.1 <==> !InCheck(s, c) && LegalMoves(s, c) == [])
  {
  }

  // ---------------------------------------------------------------------
  // Executing and undoing a move

  /** execute_move: an illegal move changes nothing and yields false;
      otherwise the move is played as by execute_temp_move, the turn passes,
      the move becomes last_move and is appended to move_history, and the
      result flags are those of the new position. */
  function ExecuteMove(g: Game, m: Move): (r: (bool, Game))
    requires GameOk(g) && MoveOk(m)
    ensures GameOk(r.1)
    ensures r.0 <==> MoveLegal(g.position, m)
    ensures !r.0 ==> r.1 == g
    ensures r.0 ==> (r.1.position.whiteTurn == !g.position.whiteTurn &&
                     r.1.lastMove == Some(m) && r.1.history == g.history + [m] &&
                     (r.1.checkmate, r.1.stalemate) == Status(r.1.position))
  {
    if !MoveLegal(g.position, m) then (false, g)
    else
      var t := TempMoved(g.position, m);
      var p := t.(whiteTurn := !g.position.whiteTurn);
      var st := Status(p);
      (true, Game(p, st.0, st.1, Some(m), g.history + [m]))
  }

  /** The first roster entry of the victim's kind and colour that is flagged
      as captured (undo_move's search). */
  function Revivable(ps: seq<Piece>, victim: Piece): Option<nat>
  {
    FindIndex(ps, (p: Piece) => p.kind == victim.kind && p.colour == victim.colour && p.captured)
  }

  /** undo_move's roster change: the first live piece of the move's colour on
      the target returns to the origin; for a capture the first captured
      entry of the victim's kind and colour comes back to life on the
      target. */
  function RestoredPieces(ps: seq<Piece>, m: Move): (r: seq<Piece>)
    requires JsModel.RosterOk(ps) && MoveOk(m)
    ensures JsModel.RosterOk(r) && |r| == |ps|
  {
    var ps1 :=
      match JsModel.ZiehendeFigur(ps, m.to, m.colour)
      case None => ps
      case Some(i) => ps[i := ps[i].(pos := m.from)];
    if m.captured.Some? then
      (match Revivable(ps1, m.captured.value)
       case None => ps1
       case Some(j) => ps1[j := ps1[j].(captured := false, pos := m.to)])
    else ps1
  }

  /** undo_move: without a last move nothing happens.  Otherwise the origin
      gets the mover's code back and the target the victim's code or EMPTY;
      the first live piece of the move's colour on the target returns to the
      origin; for a capture the first captured entry of the victim's kind and
      colour comes back to life on the target.  The turn passes back,
      last_move is cleared and so are both flags; move_history keeps the
      move. */
  function UndoMove(g: Game): (r: (bool, Game))
    requires GameOk(g)
    ensures GameOk(r.1)
    ensures r.0 <==> g.lastMove.Some?
    ensures !r.0 ==> r.1 == g
    ensures r.0 ==> (r.1.position.whiteTurn == !g.position.whiteTurn &&
                     r.1.lastMove.None? && !r.1.checkmate && !r.1.stalemate && r.1.history == g.history)
  {
    match g.lastMove
    case None => (false, g)
    case Some(m) =>
      var s := g.position;
      var board := s.board[m.from := m.kind * m.colour]
                          [m.to := if m.captured.Some? then m.captured.value.kind * m.captured.value.colour else EMPTY];
      (true, Game(Position(board, RestoredPieces(s.pieces, m), !s.whiteTurn), false, false, None, g.history))
  }

  /** undo_move restores the board cells a move touched: the origin gets the
      mover's code and the target the victim's code or EMPTY; every other
      cell keeps its content. */
  lemma UndoMoveBoard(g: Game)
    requires GameOk(g) && g.lastMove.Some?
    ensures var m := g.lastMove.value;
      var b := UndoMove(g).1.position.board;
      b[m.to] == (if m.captured.Some? then m.captured.value.kind * m.captured.value.colour else EMPTY) &&
      (m.from != m.to ==> b[m.from] == m.kind * m.colour) &&
      forall p :: 0 <= p < BOARD_SIZE && p != m.from && p != m.to ==> b[p] == g.position.board[p]
  {
  }

  /** The roster entries a move touches are the ones undo_move finds again:
      no live piece of the mover's colour already stands on the target, and
      for a capture the victim is the first live enemy on the target, of the
      recorded kind and colour, with no entry of that kind and colour flagged
      as captured before it. */
  predicate UndoableCapture(ps: seq<Piece>, m: Move)
  {
    (forall k :: 0 <= k < |ps| && ps[k].pos == m.to && !ps[k].captured ==> ps[k].colour != m.colour) &&
    (m.captured.Some? ==>
       var j := JsModel.GegnerAuf(ps, m.to, m.colour);
       j.Some? && j.value < |ps| && ps[j.value].kind == m.captured.value.kind &&
       ps[j.value].colour == m.captured.value.colour &&
       forall k :: 0 <= k < j.value ==>
         !(ps[k].kind == m.captured.value.kind && ps[k].colour == m.captured.value.colour && ps[k].captured))
  }

  /** undo_move's roster change takes back execute_move's. */
  lemma RestoredAfterMoved(ps: seq<Piece>, m: Move)
    requires JsModel.RosterOk(ps) && MoveOk(m) && m.from != m.to
    requires JsModel.ZiehendeFigur(ps, m.from, m.colour).Some? && UndoableCapture(ps, m)
    ensures RestoredPieces(MovedPieces(ps, m), m) == ps
  {
    var i := JsModel.ZiehendeFigur(ps, m.from, m.colour).value;
    var ps1 := ps[i := ps[i].(pos := m.to)];
    if m.captured.Some? {
      RestoredAfterCapture(ps, m, i);
    } else {
      assert MovedPieces(ps, m) == ps1;
      MoverFoundOnTarget(ps, ps1, m, i);
      assert ps1[i := ps1[i].(pos := m.from)] == ps;
    }
  }

  /** After the move, the mover is the first live piece of its colour on the
      target. */
  lemma MoverFoundOnTarget(ps: seq<Piece>, ps2: seq<Piece>, m: Move, i: nat)
    requires i < |ps| == |ps2| && ps2[i] == ps[i].(pos := m.to) && !ps[i].captured && ps[i].colour == m.colour
    requires forall k :: 0 <= k < i && ps2[k] != ps[k] ==> ps2[k].colour != m.colour
    requires forall k :: 0 <= k < |ps| && ps[k].pos == m.to && !ps[k].captured ==> ps[k].colour != m.colour
    ensures JsModel.ZiehendeFigur(ps2, m.to, m.colour) == Some(i)
  {
    var fM := (p: Piece) => p.pos == m.to && !p.captured && p.colour == m.colour;
    assert fM(ps2[i]);
    forall k | 0 <= k < i ensures !fM(ps2[k]) {
      if ps2[k] == ps[k] { assert !fM(ps[k]); }
    }
    FirstMatch(ps2, fM, i);
  }

  /** An index that satisfies `f` with no earlier one that does is what
      FindIndex returns. */
  lemma FirstMatch(ps: seq<Piece>, f: Piece -> bool, i: nat)
    requires i < |ps| && f(ps[i]) && forall k :: 0 <= k < i ==> !f(ps[k])
    ensures FindIndex(ps, f) == Some(i)
  {
  }

  lemma RestoredAfterCapture(ps: seq<Piece>, m: Move, i: nat)
    requires JsModel.RosterOk(ps) && MoveOk(m) && m.from != m.to && m.captured.Some?
    requires JsModel.ZiehendeFigur(ps, m.from, m.colour) == Some(i) && UndoableCapture(ps, m)
    ensures RestoredPieces(MovedPieces(ps, m), m) == ps
  {
    assert ps[i].colour == m.colour && JsModel.PieceOk(ps[i]);
    var ps1 := ps[i := ps[i].(pos := m.to)];
    var j := JsModel.GegnerAuf(ps, m.to, m.colour).value;
    GegnerAufAfterMove(ps, i, m);
    var ps2 := ps1[j := ps1[j].(captured := true)];
    assert MovedPieces(ps, m) == ps2;
    assert j != i;
    MoverFoundOnTarget(ps, ps2, m, i);
    var ps3 := ps2[i := ps2[i].(pos := m.from)];
    var v := m.captured.value;
    var fR := (p: Piece) => p.kind == v.kind && p.colour == v.colour && p.captured;
    assert fR(ps3[j]);
    forall k | 0 <= k < j ensures !fR(ps3[k]) {
      if k != i { assert ps3[k] == ps[k]; }
    }
    FirstMatch(ps3, fR, j);
    assert ps3[j := ps3[j].(captured := false, pos := m.to)] == ps;
  }

  /** Undoing a move right after executing it restores the position exactly,
      when the board held the mover's code on the origin and the victim's
      code (or EMPTY) on the target, and the roster entries are the ones
      undo_move finds again.  The flags are cleared and move_history keeps
      the move. */
  lemma UndoAfterExecute(g: Game, m: Move)
    requires GameOk(g) && MoveOk(m) && MoveLegal(g.position, m)
    requires g.position.board[m.from] == m.kind * m.colour
    requires g.position.board[m.to] ==
      (if m.captured.Some? then m.captured.value.kind * m.captured.value.colour else EMPTY)
    requires UndoableCapture(g.position.pieces, m)
    ensures ExecuteMove(g, m).0
    ensures var u := UndoMove(ExecuteMove(g, m).1);
      u.0 && u.1.position == g.position && !u.1.checkmate && !u.1.stalemate &&
      u.1.lastMove.None? && u.1.history == g.history + [m]
  {
    var s := g.position;
    var e := ExecuteMove(g, m).1;
    assert e.position.pieces == MovedPieces(s.pieces, m);
    UndoBoard(s.board, m);
    RestoredAfterMoved(s.pieces, m);
    var u := UndoMove(e).1;
    assert u.position.board == s.board && u.position.pieces == s.pieces;
  }

  /** Writing a move onto the board and taking it back restores the cells
      when they held the codes the undo writes. */
  lemma UndoBoard(b: seq<int>, m: Move)
    requires |b| == BOARD_SIZE && MoveOk(m) && m.from != m.to
    requires b[m.from] == m.kind * m.colour
    requires b[m.to] == (if m.captured.Some? then m.captured.value.kind * m.captured.value.colour else EMPTY)
    ensures b[m.from := EMPTY][m.to := m.kind * m.colour][m.from := m.kind * m.colour]
             [m.to := if m.captured.Some? then m.captured.value.kind * m.captured.value.colour else EMPTY] == b
  {
  }

  /** Moving a piece of the mover's colour does not change which enemy is
      found on the target. */
  lemma GegnerAufAfterMove(ps: seq<Piece>, i: nat, m: Move)
    requires i < |ps| && ps[i].colour == m.colour && (m.colour == WHITE || m.colour == BLACK)
    ensures JsModel.GegnerAuf(ps[i := ps[i].(pos := m.to)], m.to, m.colour) == JsModel.GegnerAuf(ps, m.to, m.colour)
  {
    var ps1 := ps[i := ps[i].(pos := m.to)];
    var f := (p: Piece) => p.pos == m.to && !p.captured && p.colour == -m.colour;
    assert forall k :: 0 <= k < |ps| ==> f(ps1[k]) == f(ps[k]);
    FindIndexSame(ps, ps1, f);
  }

  lemma FindIndexSame(a: seq<Piece>, b: seq<Piece>, f: Piece -> bool)
    requires |a| == |b| && forall k :: 0 <= k < |a| ==> f(a[k]) == f(b[k])
    ensures FindIndex(a, f) == FindIndex(b, f)
  {
    var ra, rb := FindIndex(a, f), FindIndex(b, f);
    if ra.Some? && rb.Some? {
      assert !(ra.value < rb.value) && !(rb.value < ra.value);
    }
  }

  // ---------------------------------------------------------------------
  // The search's replies (execute_temp_move keeps the turn)

  /** A quiet legal move leaves the waiting side's pieces where they were:
      their codes are still on their squares after execute_temp_move. */
  lemma QuietTempMoveKeepsWaitingSide(s: Position, m: Move)
    requires PositionOk(s) && MoveOk(m) && MoveLegal(s, m)
    requires m.captured.None? && s.board[m.to] == EMPTY
    requires CodesOnSquaresOf(s, -SideToMove(s))
    ensures CodesOnSquaresOf(TempMoved(s, m), -SideToMove(s))
  {
    var c := -SideToMove(s);
    var t := TempMoved(s, m);
    var i := JsModel.ZiehendeFigur(s.pieces, m.from, m.colour).value;
    forall k | 0 <= k < |t.pieces| && !t.pieces[k].captured && t.pieces[k].colour == c
      ensures t.board[t.pieces[k].pos] == t.pieces[k].kind * c
    {
      if k == i {
        // the mover's code sits on the origin, which carries the mover's sign
        assert s.pieces[i].pos == m.from && s.board[m.from] == s.pieces[i].kind * c;
        PieceCodeIsNotSpecial(s.pieces[i].kind, c);
        assert false;
      }
      assert t.pieces[k] == s.pieces[k];
      var p := s.pieces[k];
      PieceCodeIsNotSpecial(p.kind, c);
      assert p.pos != m.from && p.pos != m.to;
    }
  }

  /** As written: after a quiet legal move the search asks generate_moves
      for the opponent's replies, but execute_temp_move kept white_turn, so
      the reply list is empty. */
  lemma TempMoveLeavesNoReplies(s: Position, m: Move)
    requires PositionOk(s) && MoveOk(m) && MoveLegal(s, m)
    requires m.captured.None? && s.board[m.to] == EMPTY
    requires CodesOnSquaresOf(s, -SideToMove(s))
    ensures LegalMoves(TempMoved(s, m), -SideToMove(s)) == []
  {
    QuietTempMoveKeepsWaitingSide(s, m);
    WaitingSideHasNoMoves(TempMoved(s, m), -SideToMove(s));
  }

  /** The evidently intended temporary move: as execute_temp_move, and the
      turn passes to the other side, as execute_move does. */
  function TempMoveIntended(s: Position, m: Move): (r: Position)
    requires PositionOk(s) && MoveOk(m)
    ensures PositionOk(r) && SideToMove(r) == -SideToMove(s)
  {
    TempMoved(s, m).(whiteTurn := !s.whiteTurn)
  }

  /** With the turn passed, every move generated for the replying side
      passes the turn test of is_move_legal. */
  lemma IntendedRepliesPassTurnTest(s: Position, m: Move, r: Move)
    requires PositionOk(s) && MoveOk(m) && MoveLegal(s, m)
    requires m.captured.None? && s.board[m.to] == EMPTY
    requires CodesOnSquaresOf(s, -SideToMove(s))
    requires r in PseudoMoves(TempMoveIntended(s, m), -SideToMove(s), |s.pieces|)
    ensures MoveOk(r) && TurnAllows(TempMoveIntended(s, m), r)
  {
    var c := -SideToMove(s);
    var t := TempMoveIntended(s, m);
    QuietTempMoveKeepsWaitingSide(s, m);
    assert CodesOnSquaresOf(t, c);
    PseudoMovesSound(t, c, |s.pieces|);
    var k :| 0 <= k < |s.pieces| && !t.pieces[k].captured && t.pieces[k].colour == c &&
      MoveSound(t, t.pieces[k], r);
    PieceCodeIsNotSpecial(t.pieces[k].kind, c);
  }

  // ---------------------------------------------------------------------
  // The start position (initialize_board, initialize_pieces)

  /** The position after the constructor, on the board initialize_board
      builds: the 32 pieces, white to move. */
  function StartPosition(b: seq<int>): Position
    requires |b| == BOARD_SIZE
  {
    Position(JsModel.Aufstellen(b, JsModel.StartFiguren()), JsModel.StartFiguren(), true)
  }

  function StartGame(b: seq<int>): Game
    requires |b| == BOARD_SIZE
  {
    Game(StartPosition(b), false, false, None, [])
  }

  /** The start position is well formed, board and roster are in sync and
      every playable square without a piece is EMPTY. */
  lemma StartPositionOk(b: seq<int>)
    requires IsEmptyMailbox(b)
    ensures GameOk(StartGame(b)) && |StartPosition(b).pieces| == 32
    ensures JsModel.Synchron(StartPosition(b).board, StartPosition(b).pieces)
    ensures CodesOnSquaresOf(StartPosition(b), WHITE) && CodesOnSquaresOf(StartPosition(b), BLACK)
    ensures forall p :: IsValidPosition(p) && (forall i :: 0 <= i < 32 ==> StartPosition(b).pieces[i].pos != p) ==>
      StartPosition(b).board[p] == EMPTY
  {
    JsModel.StartStellung(b);
    JsModel.StartFigurenVerschieden();
  }
}
