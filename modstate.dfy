/** The modular Python engine (chessteg_modular/engine): its roster entries,
    moves and saved states as values, the roster searches of core.py, and
    the board written by initialize_board and synchronize_board_state. */
module ModState {
  import opened Common

  /** A roster dict: id, type, color, position, captured, has_moved.  Its
      'value' entry is type * color wherever the engine writes it (Value
      below); its 'symbol' entry is display only. */
  datatype MPiece = MPiece(id: int, kind: int, colour: int, pos: int, captured: bool, hasMoved: bool)

  function Value(p: MPiece): int
  {
    p.kind * p.colour
  }

  /** special_type: absent, 'double_pawn_push', 'en_passant' or 'castling'. */
  datatype Special = NoSpecial | DoublePawnPush | EnPassantCapture | Castling

  /** The rook part of a castling move: rook_id, rook_from, rook_to. */
  datatype RookMove = RookMove(rookId: int, rookFrom: int, rookTo: int)

  /** A move dict as _create_move and _generate_special_moves build it:
      piece_id, type, color, from_pos, to_pos, capture_pos, promotion_piece,
      special_type, is_capture, promotion_type and the castling rook. */
  datatype MMove = MMove(pieceId: int, kind: int, colour: int, from: int, to: int,
                         capturePos: Option<int>, promotionPiece: Option<int>,
                         special: Special, isCapture: bool, promotionType: Option<int>,
                         rook: Option<RookMove>)

  /** The engine state together with its ChessRules state (en-passant
      target and castling rights). */
  datatype MState = MState(board: seq<int>, pieces: seq<MPiece>, whiteTurn: bool,
                           checkmate: bool, stalemate: bool, nextPieceId: int,
                           enPassantTarget: Option<int>, castlingRights: Rights)

  /** What _save_state pushes: everything but the board. */
  datatype Saved = Saved(pieces: seq<MPiece>, whiteTurn: bool, checkmate: bool, stalemate: bool,
                         nextPieceId: int, enPassantTarget: Option<int>, castlingRights: Rights)

  /** The engine state with its move_history stack. */
  datatype MGame = MGame(state: MState, history: seq<Saved>)

  /** Python truthiness of an optional integer entry (`if move.get(k):`). */
  predicate Truthy(o: Option<int>)
  {
    o.Some? && o.value != 0
  }

  predicate InRange(p: int)
  {
    0 <= p < BOARD_SIZE
  }

  /** Every roster entry has a square inside the 120-cell list, and a live
      one stands on a playable square. */
  predicate RosterOk(ps: seq<MPiece>)
  {
    forall i :: 0 <= i < |ps| ==> InRange(ps[i].pos) && (!ps[i].captured ==> IsValidPosition(ps[i].pos))
  }

  /** The ids handed out by _add_piece: strictly increasing along the
      roster and all below next_piece_id. */
  predicate IdsIncreasing(ps: seq<MPiece>, next: int)
  {
    (forall i :: 0 <= i < |ps| ==> ps[i].id < next) &&
    (forall i, j :: 0 <= i < j < |ps| ==> ps[i].id < ps[j].id)
  }

  predicate SavedOk(h: Saved)
  {
    RosterOk(h.pieces) && IdsIncreasing(h.pieces, h.nextPieceId)
  }

  predicate StateOk(s: MState)
  {
    |s.board| == BOARD_SIZE && RosterOk(s.pieces) && IdsIncreasing(s.pieces, s.nextPieceId)
  }

  predicate GameOk(g: MGame)
  {
    StateOk(g.state) && forall i :: 0 <= i < |g.history| ==> SavedOk(g.history[i])
  }

  /** The squares a move names lie inside the 120-cell list, and a castling
      move carries its rook entries. */
  predicate MoveOk(m: MMove)
  {
    InRange(m.from) && InRange(m.to) &&
    (m.capturePos.Some? ==> InRange(m.capturePos.value)) &&
    (m.special == Castling ==> m.rook.Some?) &&
    (m.rook.Some? ==> InRange(m.rook.value.rookTo))
  }

  lemma IdsAreDistinct(ps: seq<MPiece>, next: int, i: int, j: int)
    requires IdsIncreasing(ps, next) && 0 <= i < |ps| && 0 <= j < |ps| && i != j
    ensures ps[i].id != ps[j].id
  {
    if i < j {
      assert ps[i].id < ps[j].id;
    } else {
      assert ps[j].id < ps[i].id;
    }
  }

  // ---------------------------------------------------------------------
  // Roster searches

  /** get_piece_at: the first live entry on `position`. */
  function PieceAt(ps: seq<MPiece>, position: int): (r: Option<nat>)
    ensures r.Some? ==> r.value < |ps| && !ps[r.value].captured && ps[r.value].pos == position
    ensures r.Some? ==> forall j :: 0 <= j < r.value ==> ps[j].captured || ps[j].pos != position
    ensures r.None? <==> forall i :: 0 <= i < |ps| ==> ps[i].captured || ps[i].pos != position
  {
    FindIndex(ps, (p: MPiece) => !p.captured && p.pos == position)
  }

  /** get_piece_by_id: the first entry with the id, captured or not. */
  function PieceById(ps: seq<MPiece>, id: int): (r: Option<nat>)
    ensures r.Some? ==> r.value < |ps| && ps[r.value].id == id
    ensures r.Some? ==> forall j :: 0 <= j < r.value ==> ps[j].id != id
    ensures r.None? <==> forall i :: 0 <= i < |ps| ==> ps[i].id != id
  {
    FindIndex(ps, (p: MPiece) => p.id == id)
  }

  /** get_king: the first live king of the colour. */
  function King(ps: seq<MPiece>, colour: int): (r: Option<nat>)
    ensures r.Some? ==> r.value < |ps| && ps[r.value].kind == KING && ps[r.value].colour == colour && !ps[r.value].captured
    ensures r.Some? ==> forall j :: 0 <= j < r.value ==> ps[j].kind != KING || ps[j].colour != colour || ps[j].captured
    ensures r.None? <==> forall i :: 0 <= i < |ps| ==> ps[i].kind != KING || ps[i].colour != colour || ps[i].captured
  {
    FindIndex(ps, (p: MPiece) => p.kind == KING && p.colour == colour && !p.captured)
  }

  /** With increasing ids, get_piece_by_id finds the only entry with that id. */
  lemma PieceByIdUnique(ps: seq<MPiece>, next: int, i: int)
    requires IdsIncreasing(ps, next) && 0 <= i < |ps|
    ensures PieceById(ps, ps[i].id) == Some(i)
  {
    var r := PieceById(ps, ps[i].id);
    if r.value != i {
      IdsAreDistinct(ps, next, r.value, i);
    }
  }

  // ---------------------------------------------------------------------
  // The board

  /** A cell initialize_board sets to DUMMY: rows 0 and 11 and the columns
      0 and 9 of rows 1 to 10. */
  predicate IsBorderCell(i: int)
  {
    i < 10 || i >= 110 || i % 10 == 0 || i % 10 == 9
  }

  /** The list initialize_board leaves. */
  function InitialBoard(): (b: seq<int>)
    ensures |b| == BOARD_SIZE
    ensures forall i :: 0 <= i < BOARD_SIZE ==> b[i] == if IsBorderCell(i) then DUMMY else EMPTY
  {
    seq(BOARD_SIZE, i requires 0 <= i < BOARD_SIZE => if IsBorderCell(i) then DUMMY else EMPTY)
  }

  /** The playable squares are EMPTY, but so are the sixteen cells 11..18
      and 101..108: unlike the JS board, the modular board does not carry
      the sentinel on rows 1 and 10, so it is not Bordered. */
  lemma InitialBoardShape()
    ensures forall p :: IsValidPosition(p) ==> InitialBoard()[p] == EMPTY
    ensures forall p :: 11 <= p <= 18 || 101 <= p <= 108 ==> InitialBoard()[p] == EMPTY
    ensures !Bordered(InitialBoard())
  {
    assert !IsValidPosition(11) && InitialBoard()[11] == EMPTY;
  }

  /** synchronize_board_state marks a live entry off the playable squares
      as captured and leaves every other entry alone. */
  function SyncPiece(p: MPiece): MPiece
  {
    if !p.captured && !IsValidPosition(p.pos) then p.(captured := true) else p
  }

  function SyncedPieces(ps: seq<MPiece>): (r: seq<MPiece>)
    ensures |r| == |ps|
    ensures forall i :: 0 <= i < |ps| ==> r[i] == SyncPiece(ps[i])
  {
    seq(|ps|, i requires 0 <= i < |ps| => SyncPiece(ps[i]))
  }

  /** The board synchronize_board_state writes: the initial board with the
      value of each live entry on a playable square written in roster
      order, a later entry overwriting an earlier one on the same square. */
  function SyncedBoard(ps: seq<MPiece>): (b: seq<int>)
    ensures |b| == BOARD_SIZE
  {
    if |ps| == 0 then InitialBoard()
    else
      var b := SyncedBoard(ps[..|ps| - 1]);
      var p := ps[|ps| - 1];
      if !p.captured && IsValidPosition(p.pos) then b[p.pos := Value(p)] else b
  }

  /** The last live entry on `c` among the first n entries. */
  function LastLiveAt(ps: seq<MPiece>, c: int, n: nat): (r: Option<nat>)
    requires n <= |ps|
    ensures r.Some? ==> r.value < n && !ps[r.value].captured && ps[r.value].pos == c
    ensures r.Some? ==> forall j :: r.value < j < n ==> ps[j].captured || ps[j].pos != c
    ensures r.None? ==> forall j :: 0 <= j < n ==> ps[j].captured || ps[j].pos != c
  {
    if n == 0 then None
    else if !ps[n - 1].captured && ps[n - 1].pos == c then Some(n - 1)
    else LastLiveAt(ps, c, n - 1)
  }

  /** Cell by cell: a playable cell holds the value of the last live entry
      standing on it, or EMPTY; every other cell keeps its initial value. */
  lemma {:induction false} SyncedBoardCell(ps: seq<MPiece>, c: int)
    requires 0 <= c < BOARD_SIZE
    ensures !IsValidPosition(c) ==> SyncedBoard(ps)[c] == InitialBoard()[c]
    ensures IsValidPosition(c) ==>
      SyncedBoard(ps)[c] == (match LastLiveAt(ps, c, |ps|) case None => EMPTY case Some(i) => Value(ps[i]))
  {
    if |ps| > 0 {
      var front := ps[..|ps| - 1];
      SyncedBoardCell(front, c);
      assert forall k :: 0 <= k < |front| ==> front[k] == ps[k];
      assert LastLiveAt(front, c, |front|) == LastLiveAt(ps, c, |ps| - 1) by {
        LastLiveAtPrefix(ps, front, c, |front|);
      }
    } else {
      InitialBoardShape();
    }
  }

  lemma {:induction false} LastLiveAtPrefix(ps: seq<MPiece>, front: seq<MPiece>, c: int, n: nat)
    requires n <= |front| <= |ps| && forall k :: 0 <= k < |front| ==> front[k] == ps[k]
    ensures LastLiveAt(front, c, n) == LastLiveAt(ps, c, n)
  {
    if n > 0 {
      LastLiveAtPrefix(ps, front, c, n - 1);
    }
  }

  /** When no two live entries share a square, every live entry on a
      playable square is found on the synchronized board. */
  lemma SyncedBoardHoldsLivePieces(ps: seq<MPiece>, i: int)
    requires 0 <= i < |ps| && !ps[i].captured && IsValidPosition(ps[i].pos)
    requires forall j :: 0 <= j < |ps| && j != i && !ps[j].captured ==> ps[j].pos != ps[i].pos
    ensures SyncedBoard(ps)[ps[i].pos] == Value(ps[i])
  {
    SyncedBoardCell(ps, ps[i].pos);
    var r := LastLiveAt(ps, ps[i].pos, |ps|);
    assert r == Some(i);
  }

  /** After synchronizing, no live entry is off the playable squares. */
  lemma SyncedPiecesOnBoard(ps: seq<MPiece>)
    requires forall i :: 0 <= i < |ps| ==> InRange(ps[i].pos)
    ensures RosterOk(SyncedPieces(ps))
  {
  }

  /** On a roster that is already in order, synchronizing keeps it. */
  lemma SyncedPiecesKeepsGoodRoster(ps: seq<MPiece>)
    requires RosterOk(ps)
    ensures SyncedPieces(ps) == ps
  {
  }

  lemma SyncedPiecesKeepIds(ps: seq<MPiece>, next: int)
    requires IdsIncreasing(ps, next)
    ensures IdsIncreasing(SyncedPieces(ps), next)
  {
  }

  /** The state after synchronize_board_state. */
  function Synchronize(s: MState): (r: MState)
    ensures r.board == SyncedBoard(s.pieces) && r.pieces == SyncedPieces(s.pieces)
    ensures r == s.(board := r.board, pieces := r.pieces)
  {
    s.(board := SyncedBoard(s.pieces), pieces := SyncedPieces(s.pieces))
  }

  // ---------------------------------------------------------------------
  // The initial position

  /** Kind, colour and square of each _add_piece call of initialize_pieces:
      Black's officers and pawns first, then White's pawns and officers. */
  const START_LAYOUT: seq<(int, int, int)> := [
    (ROOK, BLACK, 91), (KNIGHT, BLACK, 92), (BISHOP, BLACK, 93), (QUEEN, BLACK, 94),
    (KING, BLACK, 95), (BISHOP, BLACK, 96), (KNIGHT, BLACK, 97), (ROOK, BLACK, 98),
    (PAWN, BLACK, 81), (PAWN, BLACK, 82), (PAWN, BLACK, 83), (PAWN, BLACK, 84),
    (PAWN, BLACK, 85), (PAWN, BLACK, 86), (PAWN, BLACK, 87), (PAWN, BLACK, 88),
    (PAWN, WHITE, 31), (PAWN, WHITE, 32), (PAWN, WHITE, 33), (PAWN, WHITE, 34),
    (PAWN, WHITE, 35), (PAWN, WHITE, 36), (PAWN, WHITE, 37), (PAWN, WHITE, 38),
    (ROOK, WHITE, 21), (KNIGHT, WHITE, 22), (BISHOP, WHITE, 23), (QUEEN, WHITE, 24),
    (KING, WHITE, 25), (BISHOP, WHITE, 26), (KNIGHT, WHITE, 27), (ROOK, WHITE, 28)]

  /** The entry the n-th _add_piece call creates (ids start at 1). */
  function StartPiece(n: nat): MPiece
    requires n < |START_LAYOUT|
  {
    MPiece(n + 1, START_LAYOUT[n].0, START_LAYOUT[n].1, START_LAYOUT[n].2, false, false)
  }

  function StartPieces(n: nat): (ps: seq<MPiece>)
    requires n <= |START_LAYOUT|
    ensures |ps| == n && forall i :: 0 <= i < n ==> ps[i] == StartPiece(i)
  {
    seq(n, i requires 0 <= i < n => StartPiece(i))
  }

  /** The initial roster: 32 live entries with ids 1..32 on playable
      squares, known kinds and colours. */
  lemma StartRosterOk()
    ensures RosterOk(StartPieces(32)) && IdsIncreasing(StartPieces(32), 33)
    ensures forall i :: 0 <= i < 32 ==> IsColour(StartPiece(i).colour) && IsKind(StartPiece(i).kind)
  {
    StartLayoutSquares();
  }

  /** Every square of the start layout is playable. */
  lemma StartLayoutSquares()
    ensures forall k :: 0 <= k < 32 ==> 20 < START_LAYOUT[k].2 < 100 && 1 <= START_LAYOUT[k].2 % 10 <= 8
  {
    assert forall k :: 0 <= k < 16 ==> 81 <= START_LAYOUT[k].2 <= 98 && START_LAYOUT[k].2 != 89 && START_LAYOUT[k].2 != 90;
    assert forall k :: 16 <= k < 32 ==> 21 <= START_LAYOUT[k].2 <= 38 && START_LAYOUT[k].2 != 29 && START_LAYOUT[k].2 != 30;
  }

  /** Entry 28 is White's king and entry 4 Black's. */
  lemma StartKings()
    ensures King(StartPieces(32), WHITE) == Some(28) && King(StartPieces(32), BLACK) == Some(4)
  {
    var ps := StartPieces(32);
    assert ps[28].kind == KING && ps[4].kind == KING;
    assert forall i :: 0 <= i < 28 ==> ps[i].kind != KING || ps[i].colour != WHITE;
    assert forall i :: 0 <= i < 4 ==> ps[i].kind != KING;
  }
}
