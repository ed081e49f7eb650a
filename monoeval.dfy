/** The integer terms of the monolithic engine's evaluation (chessteg.py):
    calculate_position_value, calculate_development_advantage with
    is_piece_developed, and calculate_pawn_structure.  The tables are the
    modular engine's (ModEval), and so is the pawns_per_file dict; a
    chessteg.py roster entry is read as a modular one with id 0 and
    has_moved false, fields neither term looks at. */
module MonoEval {
  import opened Common
  import opened ModState
  import ModPlay
  import ModEval
  import JsModel

  function AsMPiece(p: Piece): MPiece
  {
    MPiece(0, p.kind, p.colour, p.pos, p.captured, false)
  }

  function AsMPieces(ps: seq<Piece>): (r: seq<MPiece>)
    ensures |r| == |ps| && forall i :: 0 <= i < |ps| ==> r[i] == AsMPiece(ps[i])
  {
    seq(|ps|, i requires 0 <= i < |ps| => AsMPiece(ps[i]))
  }

  predicate ColoursOk(ps: seq<Piece>)
  {
    forall i :: 0 <= i < |ps| ==> IsColour(ps[i].colour)
  }

  /** The colour mirror: every piece swaps colour and row r becomes row
      11 - r. */
  function MirrorPieces(ps: seq<Piece>): (r: seq<Piece>)
    ensures |r| == |ps|
    ensures forall i :: 0 <= i < |ps| ==>
      r[i] == ps[i].(colour := -ps[i].colour, pos := ModEval.MirrorSquare(ps[i].pos))
  {
    seq(|ps|, i requires 0 <= i < |ps| => ps[i].(colour := -ps[i].colour, pos := ModEval.MirrorSquare(ps[i].pos)))
  }

  lemma AsMPiecesMirror(ps: seq<Piece>)
    ensures AsMPieces(MirrorPieces(ps)) == ModEval.MirrorRoster(AsMPieces(ps))
  {
  }

  lemma AsMPiecesColours(ps: seq<Piece>)
    requires ColoursOk(ps)
    ensures ModPlay.ColoursOk(AsMPieces(ps))
  {
  }

  // ---------------------------------------------------------------------
  // calculate_position_value

  /** 0 unless extended_evaluation is on; otherwise the table cell of the
      piece's kind at the clamped row (counted from the piece's own side)
      and column. */
  function PositionValue(extended: bool, piece: Piece): (v: int)
    requires IsKind(piece.kind)
    ensures !extended ==> v == 0
  {
    if !extended then 0
    else ModEval.PositionTable(piece.kind)[ModEval.TableRow(piece.colour, piece.pos)][ModEval.TableCol(piece.pos)]
  }

  /** On a playable square a White piece reads row board_row - 2 and a Black
      piece row 9 - board_row, both at column board_col - 1: a piece and its
      mirror image get the same value. */
  lemma PositionValueMirror(extended: bool, piece: Piece)
    requires IsKind(piece.kind) && IsColour(piece.colour) && IsValidPosition(piece.pos)
    ensures var m := piece.(colour := -piece.colour, pos := ModEval.MirrorSquare(piece.pos));
      PositionValue(extended, m) == PositionValue(extended, piece)
    ensures extended ==>
      (PositionValue(extended, piece) ==
       ModEval.PositionTable(piece.kind)[if piece.colour == WHITE then Row(piece.pos) - 2 else 9 - Row(piece.pos)][Col(piece.pos) - 1])
  {
    var m := piece.(colour := -piece.colour, pos := ModEval.MirrorSquare(piece.pos));
    assert ModEval.TableCol(m.pos) == ModEval.TableCol(piece.pos);
    assert ModEval.TableRow(m.colour, m.pos) == ModEval.TableRow(piece.colour, piece.pos);
  }

  // ---------------------------------------------------------------------
  // calculate_development_advantage

  /** is_piece_developed: the piece has left its back row (row 2 for White,
      row 9 for any other colour). */
  predicate IsDeveloped(piece: Piece)
  {
    Row(piece.pos) != (if piece.colour == WHITE then 2 else 9)
  }

  /** A live developed knight or bishop counts 20 for White and -20 for any
      other colour. */
  function DevelopmentTerm(p: Piece): int
  {
    if !p.captured && (p.kind == KNIGHT || p.kind == BISHOP) && IsDeveloped(p) then
      (if p.colour == WHITE then 20 else -20)
    else 0
  }

  function DevelopmentAdvantage(ps: seq<Piece>): int
  {
    if |ps| == 0 then 0 else DevelopmentAdvantage(ps[..|ps| - 1]) + DevelopmentTerm(ps[|ps| - 1])
  }

  /** The advantage counts the developed minor pieces: 20 for each White one
      less 20 for each Black one, so it lies within 20 times the roster
      size. */
  lemma {:induction false} DevelopmentBounded(ps: seq<Piece>)
    ensures -20 * |ps| <= DevelopmentAdvantage(ps) <= 20 * |ps|
    ensures (forall i :: 0 <= i < |ps| ==> ps[i].captured || (ps[i].kind != KNIGHT && ps[i].kind != BISHOP) || !IsDeveloped(ps[i]))
      ==> DevelopmentAdvantage(ps) == 0
  {
    if |ps| > 0 {
      DevelopmentBounded(ps[..|ps| - 1]);
    }
  }

  lemma {:induction false} DevelopmentAppend(a: seq<Piece>, b: seq<Piece>)
    ensures DevelopmentAdvantage(a + b) == DevelopmentAdvantage(a) + DevelopmentAdvantage(b)
    decreases |b|
  {
    if |b| == 0 {
      assert a + b == a;
    } else {
      assert (a + b)[..|a + b| - 1] == a + b[..|b| - 1];
      assert (a + b)[|a + b| - 1] == b[|b| - 1];
      DevelopmentAppend(a, b[..|b| - 1]);
    }
  }

  /** In the start position no knight or bishop has left its back row. */
  lemma StartDevelopmentZero()
    ensures DevelopmentAdvantage(JsModel.StartFiguren()) == 0
  {
    var os, bp := JsModel.OFFIZIERE, JsModel.Bauernpaare(JsModel.LINIEN);
    assert forall i :: 0 <= i < 16 ==> os[i].kind == KNIGHT || os[i].kind == BISHOP ==> !IsDeveloped(os[i]);
    DevelopmentBounded(os);
    JsModel.BauernpaareFelder(JsModel.LINIEN);
    DevelopmentBounded(bp);
    DevelopmentAppend(os, bp);
  }

  /** Mirroring the position changes the sign of the advantage. */
  lemma {:induction false} DevelopmentMirror(ps: seq<Piece>)
    requires ColoursOk(ps)
    ensures DevelopmentAdvantage(MirrorPieces(ps)) == -DevelopmentAdvantage(ps)
  {
    if |ps| > 0 {
      var front := ps[..|ps| - 1];
      assert MirrorPieces(ps)[..|ps| - 1] == MirrorPieces(front);
      DevelopmentMirror(front);
    }
  }

  // ---------------------------------------------------------------------
  // calculate_pawn_structure

  /** The second loop as written: a key with more than one pawn makes the
      colour White when the key text ends in "1" (str(WHITE)) and Black
      otherwise, and adds -20 for White and 20 for Black, whatever the
      count. */
  function BucketPenaltyAsWritten(b: ModEval.Bucket): int
  {
    if b.count > 1 then
      (if ModEval.EndsWithOne(ModEval.KeyText(b.file, b.colour)) then -20 else 20)
    else 0
  }

  function PawnStructureAsWritten(ps: seq<Piece>): int
  {
    ModEval.BucketsTotal(ModEval.Buckets(AsMPieces(ps)), BucketPenaltyAsWritten)
  }

  /** The evident intent: -20 for each file with doubled White pawns, 20 for
      each file with doubled Black pawns. */
  function BucketPenalty(b: ModEval.Bucket): int
  {
    if b.count > 1 then (if b.colour == WHITE then -20 else 20) else 0
  }

  function PawnStructure(ps: seq<Piece>): int
  {
    ModEval.BucketsTotal(ModEval.Buckets(AsMPieces(ps)), BucketPenalty)
  }

  /** The penalty every doubled key gets as written, whatever its colour. */
  function FlatPenalty(b: ModEval.Bucket): int
  {
    if b.count > 1 then -20 else 0
  }

  lemma {:induction false} AsWrittenIsFlat(bs: seq<ModEval.Bucket>)
    requires ModEval.BucketsOk(bs)
    ensures ModEval.BucketsTotal(bs, BucketPenaltyAsWritten) == ModEval.BucketsTotal(bs, FlatPenalty)
    ensures ModEval.BucketsTotal(bs, FlatPenalty) <= 0
    decreases |bs|
  {
    if |bs| > 0 {
      AsWrittenIsFlat(bs[..|bs| - 1]);
      var b := bs[|bs| - 1];
      ModEval.KeyEndsWithOne(b.file, b.colour);
    }
  }

  /** A term that is scaled by `sign` on every swapped bucket scales the
      total by `sign`. */
  lemma {:induction false} SwapTotal(bs: seq<ModEval.Bucket>, term: ModEval.Bucket -> int, sign: int)
    requires forall k :: 0 <= k < |bs| ==> term(ModEval.SwapBuckets(bs)[k]) == sign * term(bs[k])
    ensures ModEval.BucketsTotal(ModEval.SwapBuckets(bs), term) == sign * ModEval.BucketsTotal(bs, term)
    decreases |bs|
  {
    if |bs| > 0 {
      var front := bs[..|bs| - 1];
      assert ModEval.SwapBuckets(bs)[..|bs| - 1] == ModEval.SwapBuckets(front);
      SwapTotal(front, term, sign);
    }
  }

  /** As written, every doubled file costs 20 whichever side it belongs to:
      the term is never positive. */
  lemma PawnStructureAsWrittenNonPositive(ps: seq<Piece>)
    requires ColoursOk(ps)
    ensures PawnStructureAsWritten(ps) <= 0
  {
    AsMPiecesColours(ps);
    ModEval.BucketsAreOk(AsMPieces(ps));
    AsWrittenIsFlat(ModEval.Buckets(AsMPieces(ps)));
  }

  /** As written, the term stays the same in the mirrored position instead
      of changing sign. */
  lemma PawnStructureAsWrittenMirror(ps: seq<Piece>)
    requires ColoursOk(ps)
    ensures PawnStructureAsWritten(MirrorPieces(ps)) == PawnStructureAsWritten(ps)
  {
    var bs := ModEval.Buckets(AsMPieces(ps));
    AsMPiecesMirror(ps);
    ModEval.BucketsMirror(AsMPieces(ps));
    AsMPiecesColours(ps);
    ModEval.BucketsAreOk(AsMPieces(ps));
    ModEval.SwapBucketsTotals(bs);
    AsWrittenIsFlat(bs);
    AsWrittenIsFlat(ModEval.SwapBuckets(bs));
    SwapTotal(bs, FlatPenalty, 1);
  }

  /** The intended term changes sign in the mirrored position. */
  lemma PawnStructureMirror(ps: seq<Piece>)
    requires ColoursOk(ps)
    ensures PawnStructure(MirrorPieces(ps)) == -PawnStructure(ps)
  {
    var bs := ModEval.Buckets(AsMPieces(ps));
    AsMPiecesMirror(ps);
    ModEval.BucketsMirror(AsMPieces(ps));
    AsMPiecesColours(ps);
    ModEval.BucketsAreOk(AsMPieces(ps));
    SwapTotal(bs, BucketPenalty, -1);
  }

  /** Two black pawns on one file: as written the score drops by 20, as
      intended it rises by 20. */
  lemma BlackDoubledPawnsMisjudged()
    ensures PawnStructureAsWritten([Piece(PAWN, BLACK, 73, false), Piece(PAWN, BLACK, 63, false)]) == -20
    ensures PawnStructure([Piece(PAWN, BLACK, 73, false), Piece(PAWN, BLACK, 63, false)]) == 20
  {
    var ps := [Piece(PAWN, BLACK, 73, false), Piece(PAWN, BLACK, 63, false)];
    var ms := AsMPieces(ps);
    assert ms == [AsMPiece(ps[0]), AsMPiece(ps[1])];
    assert ms[..1] == [ms[0]] && [ms[0]][..0] == [];
    assert ModEval.Buckets(ms[..1]) == [ModEval.Bucket(3, BLACK, 1)];
    assert ModEval.Buckets(ms) == ModEval.Bump([ModEval.Bucket(3, BLACK, 1)], 3, BLACK);
    assert ModEval.Buckets(ms) == [ModEval.Bucket(3, BLACK, 2)];
    assert [ModEval.Bucket(3, BLACK, 2)][..0] == [];
    ModEval.KeyEndsWithOne(3, BLACK);
    assert BucketPenaltyAsWritten(ModEval.Bucket(3, BLACK, 2)) == -20;
    assert ModEval.BucketsTotal([ModEval.Bucket(3, BLACK, 2)], BucketPenaltyAsWritten) == -20;
    assert ModEval.BucketsTotal([ModEval.Bucket(3, BLACK, 2)], BucketPenalty) == 20;
  }
}
